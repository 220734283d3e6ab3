/**
 * The early story-graph abstractions: nodes that collect the ids of their
 * children, edges between node ids, a graph that stores nodes by id and
 * edges in insertion order, and a dispatcher over the three kinds of player
 * interaction.
 */
module Abstractions {
  import opened PyText
  import opened Narrative

  type Metadata = map<string, string>

  /** `Node`: its list of children grows in place as edges are added. */
  class Node {
    var id: string
    var kind: string
    var content: string
    var metadata: Metadata
    var children: seq<string>

    /** A missing metadata dictionary becomes an empty one; a node starts without children. */
    constructor (id: string, kind: string, content: string, metadata: Option<Metadata>)
      ensures this.id == id && this.kind == kind && this.content == content
      ensures this.metadata == metadata.GetOr(map[])
      ensures children == []
    {
      this.id := id;
      this.kind := kind;
      this.content := content;
      this.metadata := metadata.GetOr(map[]);
      children := [];
    }
  }

  /** `Edge`: never changed after construction. */
  datatype Edge = Edge(source: string, target: string, kind: string, metadata: Metadata)

  /** The constructor of `Edge`, with its metadata default. */
  function NewEdge(source: string, target: string, kind: string, metadata: Option<Metadata>): (e: Edge)
    ensures e.source == source && e.target == target && e.kind == kind
    ensures metadata.None? ==> e.metadata == map[]
    ensures metadata.Some? ==> e.metadata == metadata.value
  {
    Edge(source, target, kind, metadata.GetOr(map[]))
  }

  class StoryGraph {
    var nodes: map<string, Node>
    var edges: seq<Edge>

    constructor ()
      ensures nodes == map[] && edges == []
    {
      nodes := map[];
      edges := [];
    }

    /** Every node is stored under its own id. */
    predicate Keyed()
      reads this, nodes.Values
    {
      forall k :: k in nodes ==> nodes[k].id == k
    }

    /** `add_node`: inserts, or replaces the node stored under the same id; nothing else changes. */
    method AddNode(node: Node)
      modifies this
      ensures nodes == old(nodes)[node.id := node]
      ensures edges == old(edges)
      ensures old(Keyed()) ==> Keyed()
    {
      nodes := nodes[node.id := node];
    }

    /**
     * `add_edge`: the edge is appended first and the source is looked up
     * afterwards, so an unknown source raises a `KeyError` with the edge
     * already recorded. The target is never looked up.
     */
    method AddEdge(edge: Edge) returns (r: Result<()>)
      modifies this, if edge.source in nodes then {nodes[edge.source]} else {}
      ensures edges == old(edges) + [edge]
      ensures nodes == old(nodes)
      ensures r.Ok? <==> edge.source in old(nodes)
      ensures r.Err? ==> r.error == KeyError(edge.source)
      ensures edge.source in old(nodes) ==>
                nodes[edge.source].children == old(nodes[edge.source].children) + [edge.target]
      ensures forall n :: n in old(nodes.Values) && (edge.source !in old(nodes) || n != old(nodes[edge.source])) ==>
                n.children == old(n.children)
      ensures old(Keyed()) ==> Keyed()
    {
      edges := edges + [edge];
      if edge.source !in nodes {
        return Err(KeyError(edge.source));
      }
      var source := nodes[edge.source];
      source.children := source.children + [edge.target];
      r := Ok(());
    }
  }

  // ---------------------------------------------------------------------
  // Player interaction

  datatype InteractionKind = Choice | FreeText | Numerical

  /** `InteractionHandler.interaction_types`. */
  const InteractionTypes: map<string, InteractionKind> := map[
    "choice" := Choice,
    "free_text" := FreeText,
    "numerical" := Numerical]

  function UnknownInteraction(interactionType: string): string {
    "Unknown interaction type: " + interactionType
  }

  /**
   * `handle_interaction`: the result names the handler that ran (each of
   * them returns `None`); any other type is a `ValueError`.
   */
  function HandleInteraction(interactionType: string, context: string): (r: Result<InteractionKind>)
    ensures r.Ok? <==> interactionType == "choice" || interactionType == "free_text" || interactionType == "numerical"
    ensures r.Err? ==> r.error == ValueError(UnknownInteraction(interactionType))
  {
    if interactionType in InteractionTypes then Ok(InteractionTypes[interactionType])
    else Err(ValueError(UnknownInteraction(interactionType)))
  }

  /** Each known type reaches its own handler, and the context plays no part in the choice. */
  lemma HandlersDistinct(context1: string, context2: string)
    ensures HandleInteraction("choice", context1) == Ok(Choice)
    ensures HandleInteraction("free_text", context1) == Ok(FreeText)
    ensures HandleInteraction("numerical", context1) == Ok(Numerical)
    ensures forall t :: HandleInteraction(t, context1) == HandleInteraction(t, context2)
  {
  }

  /** An unknown type is reported with the type in the message, whatever its spelling. */
  lemma UnknownTypeMessage(interactionType: string)
    requires interactionType !in InteractionTypes
    ensures ErrorText(HandleInteraction(interactionType, "").error) == "Unknown interaction type: " + interactionType
  {
  }

  // ---------------------------------------------------------------------
  // Building a graph

  /**
   * Adding the edges of a chain to a graph that holds its first node but
   * not its second: the first edge extends the first node's children, the
   * second edge raises yet stays recorded.
   */
  method AddEdgeNotAtomic() returns (g: StoryGraph, r1: Result<()>, r2: Result<()>)
    ensures g.edges == [Edge("a", "b", "choice", map[]), Edge("b", "c", "choice", map[])]
    ensures r1.Ok? && r2 == Err(KeyError("b"))
    ensures "a" in g.nodes && g.nodes["a"].children == ["b"]
    ensures "b" !in g.nodes
  {
    g := new StoryGraph();
    var a := new Node("a", "scenario", "", None);
    g.AddNode(a);
    r1 := g.AddEdge(NewEdge("a", "b", "choice", None));
    r2 := g.AddEdge(NewEdge("b", "c", "choice", None));
  }
}
