/** The two string operations of the Java library used by the model:
    `String.join(sep, parts)` / `Collectors.joining(sep)`, and splitting a
    string at a separator character, which undoes the join. */
module Strings {

  /** The parts with `sep` between neighbours; "" for no parts. */
  function Join(parts: seq<string>, sep: string): string
  {
    if |parts| == 0 then ""
    else if |parts| == 1 then parts[0]
    else parts[0] + sep + Join(parts[1..], sep)
  }

  /** Position of the first occurrence of `c` in `s`. */
  function IndexOf(s: string, c: char): (i: nat)
    requires c in s
    ensures i < |s| && s[i] == c
    ensures forall j :: 0 <= j < i ==> s[j] != c
  {
    if s[0] == c then 0 else 1 + IndexOf(s[1..], c)
  }

  /** The maximal pieces of `s` that contain no `c`, in order. */
  function Split(s: string, c: char): (parts: seq<string>)
    ensures |parts| > 0
    decreases |s|
  {
    if c !in s then [s]
    else
      var i := IndexOf(s, c);
      [s[..i]] + Split(s[i + 1..], c)
  }

  /** Splitting at the first separator: a leading piece free of `c` is
      split off exactly. */
  lemma SplitFirst(head: string, c: char, rest: string)
    requires c !in head
    ensures Split(head + [c] + rest, c) == [head] + Split(rest, c)
  {
    var s := head + [c] + rest;
    assert s[|head|] == c;
    var i := IndexOf(s, c);
    assert i == |head|;
    assert s[..i] == head;
    assert s[i + 1..] == rest;
  }

  /** Joining at least one part, none of which contains `c`, with `c` can be
      undone by splitting at `c`: the parts are recovered exactly. */
  lemma {:induction false} SplitJoin(parts: seq<string>, c: char)
    requires |parts| > 0
    requires forall k :: 0 <= k < |parts| ==> c !in parts[k]
    ensures Split(Join(parts, [c]), c) == parts
  {
    if |parts| == 1 {
      assert Join(parts, [c]) == parts[0];
      assert c !in parts[0];
    } else {
      var tail := parts[1..];
      assert Join(parts, [c]) == parts[0] + [c] + Join(tail, [c]);
      assert c !in parts[0];
      SplitFirst(parts[0], c, Join(tail, [c]));
      assert forall k :: 0 <= k < |tail| ==> c !in tail[k] by {
        forall k | 0 <= k < |tail| ensures c !in tail[k] {
          assert tail[k] == parts[k + 1];
        }
      }
      SplitJoin(tail, c);
      assert [parts[0]] + tail == parts;
    }
  }
}
