/**
 * The parts of the graph engine the two workflows rely on: the reserved entry and exit
 * names and static edges.
 */
module GraphEngine {

  const Start := "__start__"
  const End := "__end__"

  /** A static edge `add_edge(from, to)`. */
  datatype Edge = Edge(from: string, to: string)

  /** The targets of the static edges leaving `node`. */
  function StaticSuccessors(edges: set<Edge>, node: string): (r: set<string>)
    ensures forall t :: t in r <==> Edge(node, t) in edges
  {
    set e | e in edges && e.from == node :: e.to
  }
}
