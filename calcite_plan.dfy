/** The part of the external query planner's relational plan that the SQL
    runner looks at: which nodes write a table, which are binary, which read
    a table, and every node's inputs. */
module CalcitePlan {
  import opened Wrappers

  /** A table's qualified name, its components in order, e.g. ["kafka", "PageViews"]. */
  type QualifiedName = seq<string>

  /** A relational plan node, as a closed family:
      - `TableModify`: a sink write into `sinkTable`; Calcite's TableModify is a
        single-input node and always has its target table;
      - `BiRel`: a two-input node such as a join; it has no table;
      - `Rel`: every other node (scan, project, filter, union, ...), with its
        table if it has one (`getTable() != null`) and its inputs. */
  datatype RelNode =
    | TableModify(sinkTable: QualifiedName, input: RelNode)
    | BiRel(left: RelNode, right: RelNode)
    | Rel(table: Option<QualifiedName>, inputs: seq<RelNode>)

  /** `RelNode.getInputs()`; for a BiRel it is `[left, right]`. */
  function Inputs(n: RelNode): (r: seq<RelNode>)
    ensures n.TableModify? ==> r == [n.input]
    ensures n.BiRel? ==> r == [n.left, n.right]
    ensures n.Rel? ==> r == n.inputs
  {
    match n
    case TableModify(_, input) => [input]
    case BiRel(left, right) => [left, right]
    case Rel(_, inputs) => inputs
  }

  /** A plan root as the planner returns it: the top node, and whether its
      output fields are already exactly the requested ones. */
  datatype RelRoot = RelRoot(rel: RelNode, isTrivialProjection: bool)

  /** `RelRoot.project()`: the top node itself when the projection is
      trivial, otherwise a table-less projection over it. */
  function Project(root: RelRoot): (r: RelNode)
    ensures r == root.rel || r == Rel(None, [root.rel])
  {
    if root.isTrivialProjection then root.rel else Rel(None, [root.rel])
  }
}
