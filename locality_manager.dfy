/** The container-locality cache: which host, JMX address and JMX tunneling
    address each container was last placed at. Writes are persisted to the
    coordinator stream and kept in an in-memory cache; a read replays the
    stream's host-mapping messages, in order, into a fresh map that then
    replaces the cache and freezes it. */
module Container {
  import opened Wrappers
  import opened JavaIntegers

  /** The prefix of the source name a container writes under. */
  const SOURCE: string := "SamzaContainer-"

  /** The three keys of a locality entry, as `SetContainerHostMapping`
      defines them. */
  const IP_KEY: string := "ip"
  const JMX_URL_KEY: string := "jmx-url"
  const JMX_TUNNELING_URL_KEY: string := "jmx-tunneling-url"

  /** A message on the coordinator stream: a container-to-host mapping, or
      a message of any other type, which the locality cache never reads. */
  datatype CoordinatorStreamMessage =
    | SetContainerHostMapping(source: string, key: string, hostLocality: string,
                              jmxUrl: string, jmxTunnelingUrl: string)
    | OtherMessage(messageType: string, source: string, key: string)

  type HostMappingMessage = m: CoordinatorStreamMessage | m.SetContainerHostMapping?
    witness SetContainerHostMapping("", "", "", "", "")

  /** Why a locality operation throws. */
  datatype LocalityError =
    | NumberFormat(key: string)   // `Integer.parseInt` rejects a message key
    | UnsupportedOperation        // a `put` into the frozen cache

  /** The entry the cache holds for one container. */
  function LocalityEntry(hostHttpAddress: string, jmxAddress: string, jmxTunnelingAddress: string)
    : (e: map<string, string>)
    ensures e.Keys == {IP_KEY, JMX_URL_KEY, JMX_TUNNELING_URL_KEY}
    ensures e[IP_KEY] == hostHttpAddress
    ensures e[JMX_URL_KEY] == jmxAddress
    ensures e[JMX_TUNNELING_URL_KEY] == jmxTunnelingAddress
  {
    map[IP_KEY := hostHttpAddress, JMX_URL_KEY := jmxAddress, JMX_TUNNELING_URL_KEY := jmxTunnelingAddress]
  }

  function EntryOf(m: HostMappingMessage): map<string, string>
  {
    LocalityEntry(m.hostLocality, m.jmxUrl, m.jmxTunnelingUrl)
  }

  /** The message `writeContainerToHostMapping` sends for a container. */
  function WriteMessage(containerId: Int32, hostHttpAddress: string, jmxAddress: string,
                        jmxTunnelingAddress: string): HostMappingMessage
  {
    SetContainerHostMapping(SOURCE + ValueOf(containerId), ValueOf(containerId),
                            hostHttpAddress, jmxAddress, jmxTunnelingAddress)
  }

  /** The host-mapping messages of a log, in append order. */
  function Bootstrap(log: seq<CoordinatorStreamMessage>): (r: seq<HostMappingMessage>)
    ensures forall m :: m in r <==> m in log && m.SetContainerHostMapping?
    decreases |log|
  {
    if |log| == 0 then []
    else
      var last := log[|log| - 1];
      Bootstrap(log[..|log| - 1]) + (if last.SetContainerHostMapping? then [last] else [])
  }

  /** Distinct containers write under distinct sources and distinct keys. */
  lemma WriteMessagesDistinct(m: Int32, n: Int32, host: string, jmx: string, tunnel: string)
    requires m != n
    ensures WriteMessage(m, host, jmx, tunnel).source != WriteMessage(n, host, jmx, tunnel).source
    ensures WriteMessage(m, host, jmx, tunnel).key != WriteMessage(n, host, jmx, tunnel).key
  {
    var sm, sn := SOURCE + ValueOf(m), SOURCE + ValueOf(n);
    if sm == sn {
      assert sm[|SOURCE|..] == ValueOf(m);
      assert sn[|SOURCE|..] == ValueOf(n);
      ValueOfInjective(m, n);
    }
    if ValueOf(m) == ValueOf(n) {
      ValueOfInjective(m, n);
    }
  }

  lemma BootstrapAppend(log: seq<CoordinatorStreamMessage>, m: CoordinatorStreamMessage)
    ensures Bootstrap(log + [m]) == Bootstrap(log) + (if m.SetContainerHostMapping? then [m] else [])
  {
    assert (log + [m])[..|log|] == log;
  }

  /** The map `readContainerLocality` builds from the bootstrapped messages:
      each message in turn puts its entry under its parsed key, so a later
      message for the same container replaces an earlier one. The first key
      that does not parse aborts the replay. */
  function Replay(ms: seq<HostMappingMessage>): (r: Result<map<Int32, map<string, string>>, LocalityError>)
    ensures r.Success? ==> |r.value| <= |ms|
    decreases |ms|
  {
    if |ms| == 0 then Success(map[])
    else
      var last := ms[|ms| - 1];
      match Replay(ms[..|ms| - 1])
      case Failure(e) => Failure(e)
      case Success(m) =>
        match ParseInt(last.key)
        case None => Failure(NumberFormat(last.key))
        case Some(id) => Success(m[id := EntryOf(last)])
  }

  /** Once a prefix of the replay has failed, later messages change nothing. */
  lemma {:induction false} ReplayFailureSticks(ms: seq<HostMappingMessage>, k: nat)
    requires k <= |ms| && Replay(ms[..k]).Failure?
    ensures Replay(ms) == Replay(ms[..k])
    decreases |ms|
  {
    if k < |ms| {
      var front := ms[..|ms| - 1];
      assert front[..k] == ms[..k];
      ReplayFailureSticks(front, k);
    } else {
      assert ms[..k] == ms;
    }
  }

  /** The replay fails exactly when some key does not parse, and then it
      reports the first such key. */
  lemma {:induction false} ReplayFails(ms: seq<HostMappingMessage>)
    ensures Replay(ms).Failure? <==> exists i :: 0 <= i < |ms| && ParseInt(ms[i].key).None?
    ensures Replay(ms).Failure? ==>
      exists i :: && 0 <= i < |ms| && ParseInt(ms[i].key).None?
                  && Replay(ms).error == NumberFormat(ms[i].key)
                  && forall j :: 0 <= j < i ==> ParseInt(ms[j].key).Some?
    decreases |ms|
  {
    if |ms| > 0 {
      var front := ms[..|ms| - 1];
      ReplayFails(front);
      assert forall i :: 0 <= i < |front| ==> front[i] == ms[i];
    }
  }

  /** A successful replay holds an entry for exactly the containers some
      message names. */
  lemma {:induction false} ReplayKeys(ms: seq<HostMappingMessage>, id: Int32)
    requires Replay(ms).Success?
    ensures id in Replay(ms).value <==> exists i :: 0 <= i < |ms| && ParseInt(ms[i].key) == Some(id)
    decreases |ms|
  {
    if |ms| > 0 {
      var front := ms[..|ms| - 1];
      ReplayKeys(front, id);
      assert forall i :: 0 <= i < |front| ==> front[i] == ms[i];
    }
  }

  /** Last write wins: a container's entry comes from the last message that
      names it. */
  lemma {:induction false} ReplayLastWins(ms: seq<HostMappingMessage>, i: nat, id: Int32)
    requires Replay(ms).Success?
    requires i < |ms| && ParseInt(ms[i].key) == Some(id)
    requires forall j :: i < j < |ms| ==> ParseInt(ms[j].key) != Some(id)
    ensures id in Replay(ms).value && Replay(ms).value[id] == EntryOf(ms[i])
    decreases |ms|
  {
    if i < |ms| - 1 {
      ReplayLastWins(ms[..|ms| - 1], i, id);
    }
  }

  /** Every entry of a successful replay has exactly the three locality keys. */
  lemma {:induction false} ReplayEntryShape(ms: seq<HostMappingMessage>)
    requires Replay(ms).Success?
    ensures forall id :: id in Replay(ms).value ==>
      Replay(ms).value[id].Keys == {IP_KEY, JMX_URL_KEY, JMX_TUNNELING_URL_KEY}
    decreases |ms|
  {
    if |ms| > 0 {
      ReplayEntryShape(ms[..|ms| - 1]);
    }
  }

  /** Persist and read: replaying a log after a write gives the written
      addresses for that container on top of what the log held before. */
  lemma WriteThenReplay(log: seq<CoordinatorStreamMessage>, containerId: Int32,
                        hostHttpAddress: string, jmxAddress: string, jmxTunnelingAddress: string)
    requires Replay(Bootstrap(log)).Success?
    ensures Replay(Bootstrap(log + [WriteMessage(containerId, hostHttpAddress, jmxAddress, jmxTunnelingAddress)])) ==
      Success(Replay(Bootstrap(log)).value[containerId := LocalityEntry(hostHttpAddress, jmxAddress, jmxTunnelingAddress)])
  {
    var m := WriteMessage(containerId, hostHttpAddress, jmxAddress, jmxTunnelingAddress);
    BootstrapAppend(log, m);
    ParseIntValueOf(containerId);
    var ms := Bootstrap(log) + [m];
    assert ms[..|ms| - 1] == Bootstrap(log);
  }

  /** The coordinator stream as the locality cache sees it: an append-only
      log, plus the registrations of its producer and consumer. */
  class CoordinatorStream {
    var messages: seq<CoordinatorStreamMessage>
    var producerSources: set<string>
    var consumerRegistered: bool

    constructor (log: seq<CoordinatorStreamMessage>)
      ensures messages == log && producerSources == {} && !consumerRegistered
    {
      messages := log;
      producerSources := {};
      consumerRegistered := false;
    }

    /** `CoordinatorStreamSystemProducer.send`: append one message. */
    method Send(m: CoordinatorStreamMessage)
      modifies this
      ensures messages == old(messages) + [m]
      ensures producerSources == old(producerSources) && consumerRegistered == old(consumerRegistered)
    {
      messages := messages + [m];
    }

    /** `CoordinatorStreamSystemProducer.register(source)`. */
    method RegisterSource(source: string)
      modifies this
      ensures producerSources == old(producerSources) + {source}
      ensures messages == old(messages) && consumerRegistered == old(consumerRegistered)
    {
      producerSources := producerSources + {source};
    }

    /** `CoordinatorStreamSystemConsumer.register()`. */
    method RegisterConsumer()
      modifies this
      ensures consumerRegistered
      ensures messages == old(messages) && producerSources == old(producerSources)
    {
      consumerRegistered := true;
    }

    /** `getBootstrappedStream(SetContainerHostMapping.TYPE)`. */
    function BootstrappedStream(): seq<HostMappingMessage>
      reads this
    {
      Bootstrap(messages)
    }
  }

  class LocalityManager {
    const coordinatorStream: CoordinatorStream
    var containerToHostMapping: map<Int32, map<string, string>>
    /** Set once `readContainerLocality` has replaced the cache with an
        unmodifiable view. */
    var isUnmodifiable: bool

    /** The cache agrees with what a replay of the stream would give. */
    predicate InSync()
      reads this, coordinatorStream
    {
      Replay(Bootstrap(coordinatorStream.messages)) == Success(containerToHostMapping)
    }

    constructor (coordinatorStream: CoordinatorStream)
      ensures this.coordinatorStream == coordinatorStream
      ensures containerToHostMapping == map[] && !isUnmodifiable
    {
      this.coordinatorStream := coordinatorStream;
      containerToHostMapping := map[];
      isUnmodifiable := false;
    }

    /** `register(sourceSuffix)`: registers the consumer, and the producer
        under `"SamzaContainer-" + sourceSuffix`. */
    method Register(sourceSuffix: string)
      modifies coordinatorStream
      ensures coordinatorStream.producerSources == old(coordinatorStream.producerSources) + {SOURCE + sourceSuffix}
      ensures coordinatorStream.consumerRegistered
      ensures coordinatorStream.messages == old(coordinatorStream.messages)
    {
      coordinatorStream.RegisterConsumer();
      coordinatorStream.RegisterSource(SOURCE + sourceSuffix);
    }

    /** `readContainerLocality`: replay the bootstrapped host mappings into a
        new map; on success it becomes the (frozen) cache and is returned,
        and a key that does not parse throws with the cache untouched. */
    method ReadContainerLocality() returns (r: Result<map<Int32, map<string, string>>, LocalityError>)
      modifies this
      ensures r == Replay(Bootstrap(coordinatorStream.messages))
      ensures r.Success? ==> containerToHostMapping == r.value && isUnmodifiable && InSync()
      ensures r.Failure? ==>
        containerToHostMapping == old(containerToHostMapping) && isUnmodifiable == old(isUnmodifiable)
    {
      var allMappings: map<Int32, map<string, string>> := map[];
      var stream := coordinatorStream.BootstrappedStream();
      var i := 0;
      while i < |stream|
        invariant 0 <= i <= |stream|
        invariant Replay(stream[..i]) == Success(allMappings)
      {
        var mapping := stream[i];
        var localityMappings: map<string, string> := map[];
        localityMappings := localityMappings[IP_KEY := mapping.hostLocality];
        localityMappings := localityMappings[JMX_URL_KEY := mapping.jmxUrl];
        localityMappings := localityMappings[JMX_TUNNELING_URL_KEY := mapping.jmxTunnelingUrl];
        assert stream[..i + 1][..i] == stream[..i];
        var containerId := ParseInt(mapping.key);
        if containerId.None? {
          ReplayFailureSticks(stream, i + 1);
          return Failure(NumberFormat(mapping.key));
        }
        allMappings := allMappings[containerId.value := localityMappings];
        i := i + 1;
      }
      assert stream[..i] == stream;
      containerToHostMapping := allMappings;
      isUnmodifiable := true;
      r := Success(allMappings);
    }

    /** `writeContainerToHostMapping`: always sends the mapping message; then
        sets the container's entry to the three addresses, or throws if the
        cache has been frozen by a read. */
    method WriteContainerToHostMapping(containerId: Int32, hostHttpAddress: string, jmxAddress: string,
                                       jmxTunnelingAddress: string) returns (r: Outcome<LocalityError>)
      modifies this, coordinatorStream
      ensures coordinatorStream.messages ==
        old(coordinatorStream.messages) + [WriteMessage(containerId, hostHttpAddress, jmxAddress, jmxTunnelingAddress)]
      ensures coordinatorStream.producerSources == old(coordinatorStream.producerSources)
      ensures coordinatorStream.consumerRegistered == old(coordinatorStream.consumerRegistered)
      ensures isUnmodifiable == old(isUnmodifiable)
      ensures old(isUnmodifiable) ==> r == Fail(UnsupportedOperation) && containerToHostMapping == old(containerToHostMapping)
      ensures !old(isUnmodifiable) ==>
        && r == Pass
        && containerToHostMapping ==
             old(containerToHostMapping)[containerId := LocalityEntry(hostHttpAddress, jmxAddress, jmxTunnelingAddress)]
      ensures !old(isUnmodifiable) && old(InSync()) ==> InSync()
    {
      coordinatorStream.Send(WriteMessage(containerId, hostHttpAddress, jmxAddress, jmxTunnelingAddress));
      var mappings: map<string, string> := map[];
      mappings := mappings[IP_KEY := hostHttpAddress];
      mappings := mappings[JMX_URL_KEY := jmxAddress];
      mappings := mappings[JMX_TUNNELING_URL_KEY := jmxTunnelingAddress];
      if isUnmodifiable {
        return Fail(UnsupportedOperation);
      }
      containerToHostMapping := containerToHostMapping[containerId := mappings];
      if old(InSync()) {
        WriteThenReplay(old(coordinatorStream.messages), containerId, hostHttpAddress, jmxAddress, jmxTunnelingAddress);
      }
      r := Pass;
    }
  }

  /** Persist and read, through the class: a container's write on a fresh
      stream is what a read returns. */
  method WriteThenRead(containerId: Int32, hostHttpAddress: string, jmxAddress: string, jmxTunnelingAddress: string)
    returns (r: Result<map<Int32, map<string, string>>, LocalityError>)
    ensures r == Success(map[containerId := LocalityEntry(hostHttpAddress, jmxAddress, jmxTunnelingAddress)])
  {
    var stream := new CoordinatorStream([]);
    var manager := new LocalityManager(stream);
    assert manager.InSync();
    var written := manager.WriteContainerToHostMapping(containerId, hostHttpAddress, jmxAddress, jmxTunnelingAddress);
    r := manager.ReadContainerLocality();
  }

  /** A write after a read throws on the frozen cache, but its message is
      already on the stream, so the next manager to read the stream sees
      it. */
  method WriteAfterReadIsStillPersisted(containerId: Int32, hostHttpAddress: string, jmxAddress: string,
                                        jmxTunnelingAddress: string)
    returns (written: Outcome<LocalityError>, reread: Result<map<Int32, map<string, string>>, LocalityError>)
    ensures written == Fail(UnsupportedOperation)
    ensures reread == Success(map[containerId := LocalityEntry(hostHttpAddress, jmxAddress, jmxTunnelingAddress)])
  {
    var stream := new CoordinatorStream([]);
    var manager := new LocalityManager(stream);
    var first := manager.ReadContainerLocality();
    written := manager.WriteContainerToHostMapping(containerId, hostHttpAddress, jmxAddress, jmxTunnelingAddress);
    WriteThenReplay([], containerId, hostHttpAddress, jmxAddress, jmxTunnelingAddress);
    var next := new LocalityManager(stream);
    reread := next.ReadContainerLocality();
  }
}
