// The Neo4j graph as the loaders see it: labelled nodes keyed by one property,
// typed edges, and the MERGE / MATCH / SET write primitives.

module GraphStore {
  import opened Base

  /** A property value; a JSON `null` is never stored (SET to null removes the property). */
  datatype Value = Text(s: string) | Int(i: int) | Vector(v: seq<real>) | TextList(items: seq<string>)

  type Props = map<string, Value>

  /** A node is identified by its label and the name and value of its key property. */
  datatype NodeKey = NodeKey(kind: string, keyName: string, key: string)

  /** The Herbicide node both loaders hang their writes on. */
  function HerbicideKey(productNumber: string): NodeKey { NodeKey("Herbicide", "product_number", productNumber) }

  /** The key property of a keyed relationship MERGE such as `[r:CONTROLS {crop: $crop}]`. */
  datatype KeyProp = KeyProp(name: string, value: string)

  /** An edge between two nodes, told apart from its parallel edges by `discriminator`. */
  datatype EdgeKey = EdgeKey(from: NodeKey, rel: string, to: NodeKey, discriminator: Option<KeyProp>)

  datatype Graph = Graph(nodes: map<NodeKey, Props>, edges: map<EdgeKey, Props>)

  /** One `SET x.name = value`; `None` is a Cypher null. */
  datatype Update = Update(name: string, value: Option<Value>)

  /** `SET x.name = v`: a null value removes the property. */
  function SetProp(p: Props, u: Update): (r: Props)
    ensures u.name in r <==> u.value.Some?
    ensures u.value.Some? ==> r[u.name] == u.value.value
    ensures forall n :: n != u.name ==> (n in r <==> n in p)
    ensures forall n :: n != u.name && n in p ==> r[n] == p[n]
  {
    if u.value.Some? then p[u.name := u.value.value] else p - {u.name}
  }

  /** A SET clause with several assignments, applied left to right. */
  function SetProps(p: Props, us: seq<Update>): Props
    decreases |us|
  {
    if |us| == 0 then p else SetProp(SetProps(p, us[..|us| - 1]), us[|us| - 1])
  }

  /** The last assignment to `name` in `us`, if any. */
  function LastUpdate(us: seq<Update>, name: string): Option<Option<Value>>
    decreases |us|
  {
    if |us| == 0 then None
    else if us[|us| - 1].name == name then Some(us[|us| - 1].value)
    else LastUpdate(us[..|us| - 1], name)
  }

  /** After a SET clause a property holds its last assignment, or its old value when it was not assigned. */
  lemma {:induction false} SetPropsLast(p: Props, us: seq<Update>, name: string)
    ensures LastUpdate(us, name).Some? ==>
      (name in SetProps(p, us) <==> LastUpdate(us, name).value.Some?)
      && (LastUpdate(us, name).value.Some? ==> SetProps(p, us)[name] == LastUpdate(us, name).value.value)
    ensures LastUpdate(us, name).None? ==>
      (name in SetProps(p, us) <==> name in p) && (name in p ==> SetProps(p, us)[name] == p[name])
    decreases |us|
  {
    if |us| != 0 {
      SetPropsLast(p, us[..|us| - 1], name);
    }
  }

  /** Running the same SET clause twice has the effect of running it once. */
  lemma SetPropsIdempotent(p: Props, us: seq<Update>)
    ensures SetProps(SetProps(p, us), us) == SetProps(p, us)
  {
    var once := SetProps(p, us);
    var twice := SetProps(once, us);
    forall name
      ensures (name in twice <==> name in once) && (name in once ==> twice[name] == once[name])
    {
      SetPropsLast(p, us, name);
      SetPropsLast(once, us, name);
    }
  }

  // ------------------------------------------------------------- write primitives

  /** The properties a MERGE gives a node it creates: only its key. */
  function NewNodeProps(k: NodeKey): Props { map[k.keyName := Text(k.key)] }

  /** The properties a MERGE gives an edge it creates: only its discriminating key, if any. */
  function NewEdgeProps(e: EdgeKey): Props
  {
    if e.discriminator.Some? then map[e.discriminator.value.name := Text(e.discriminator.value.value)] else map[]
  }

  /** `MERGE (n:Label {key: $k})`: create the node, holding only its key, unless it exists. */
  function MergeNode(g: Graph, k: NodeKey): Graph
  {
    if k in g.nodes then g else g.(nodes := g.nodes[k := NewNodeProps(k)])
  }

  /** `MATCH (n {...}) SET n.a = ..., ...`: nothing happens when the node is absent. */
  function SetNode(g: Graph, k: NodeKey, us: seq<Update>): Graph
  {
    if k in g.nodes then g.(nodes := g.nodes[k := SetProps(g.nodes[k], us)]) else g
  }

  /**
   * `MATCH (a ...) MATCH (b ...) MERGE (a)-[:REL]->(b)`: the edge is created only when both
   * ends exist and it does not.
   */
  function MergeEdge(g: Graph, e: EdgeKey): Graph
  {
    if e.from in g.nodes && e.to in g.nodes && e !in g.edges then g.(edges := g.edges[e := NewEdgeProps(e)]) else g
  }

  /** `SET r.a = ...` on a matched edge. */
  function SetEdge(g: Graph, e: EdgeKey, us: seq<Update>): (r: Graph)
    ensures r.nodes == g.nodes && r.edges.Keys == g.edges.Keys
    ensures e in g.edges ==> r.edges[e] == SetProps(g.edges[e], us)
    ensures forall x :: x in g.edges && x != e ==> r.edges[x] == g.edges[x]
  {
    if e in g.edges then g.(edges := g.edges[e := SetProps(g.edges[e], us)]) else g
  }

  /** `MATCH (a) MATCH (b:Label) WHERE ... MERGE (a)-[:REL]->(b)` for every matched `b`. */
  function MergeEdgesTo(g: Graph, from: NodeKey, rel: string, targets: set<NodeKey>): Graph
    requires targets <= g.nodes.Keys
  {
    if from !in g.nodes then g
    else
      var added := set t | t in targets :: EdgeKey(from, rel, t, None);
      g.(edges := map x | x in g.edges.Keys + added :: if x in g.edges then g.edges[x] else map[])
  }

  /** MERGE adds the node when it is missing and leaves every other node and every edge as it was. */
  lemma MergeNodeSpec(g: Graph, k: NodeKey)
    ensures MergeNode(g, k).nodes.Keys == g.nodes.Keys + {k} && MergeNode(g, k).edges == g.edges
    ensures forall n :: n in g.nodes ==> MergeNode(g, k).nodes[n] == g.nodes[n]
    ensures k !in g.nodes ==> MergeNode(g, k).nodes[k] == NewNodeProps(k)
  {
  }

  /** SET on a node changes only that node's properties, and nothing when it is absent. */
  lemma SetNodeSpec(g: Graph, k: NodeKey, us: seq<Update>)
    ensures SetNode(g, k, us).nodes.Keys == g.nodes.Keys && SetNode(g, k, us).edges == g.edges
    ensures k in g.nodes ==> SetNode(g, k, us).nodes[k] == SetProps(g.nodes[k], us)
    ensures forall n :: n in g.nodes && n != k ==> SetNode(g, k, us).nodes[n] == g.nodes[n]
  {
  }

  /** A relationship MERGE adds the edge only when both ends exist, and leaves the nodes alone. */
  lemma MergeEdgeSpec(g: Graph, e: EdgeKey)
    ensures MergeEdge(g, e).nodes == g.nodes
    ensures MergeEdge(g, e).edges.Keys
         == if e.from in g.nodes && e.to in g.nodes then g.edges.Keys + {e} else g.edges.Keys
    ensures forall x :: x in g.edges ==> MergeEdge(g, e).edges[x] == g.edges[x]
    ensures e !in g.edges && e in MergeEdge(g, e).edges ==> MergeEdge(g, e).edges[e] == NewEdgeProps(e)
  {
  }

  /** The edges to every matched node are added when the source node exists; nothing else changes. */
  lemma MergeEdgesToSpec(g: Graph, from: NodeKey, rel: string, targets: set<NodeKey>)
    requires targets <= g.nodes.Keys
    ensures MergeEdgesTo(g, from, rel, targets).nodes == g.nodes
    ensures MergeEdgesTo(g, from, rel, targets).edges.Keys == if from in g.nodes
      then g.edges.Keys + (set t | t in targets :: EdgeKey(from, rel, t, None))
      else g.edges.Keys
    ensures forall x :: x in g.edges ==> MergeEdgesTo(g, from, rel, targets).edges[x] == g.edges[x]
  {
  }

  lemma MergeNodeIdempotent(g: Graph, k: NodeKey)
    ensures MergeNode(MergeNode(g, k), k) == MergeNode(g, k)
  {
  }

  lemma MergeEdgeIdempotent(g: Graph, e: EdgeKey)
    ensures MergeEdge(MergeEdge(g, e), e) == MergeEdge(g, e)
  {
  }

  /** The store the loaders write to. */
  class Store {
    var nodes: map<NodeKey, Props>
    var edges: map<EdgeKey, Props>

    function State(): Graph
      reads this
    {
      Graph(nodes, edges)
    }

    constructor (g: Graph)
      ensures State() == g
    {
      nodes := g.nodes;
      edges := g.edges;
    }

    method MergeNodeOp(k: NodeKey)
      modifies this
      ensures State() == MergeNode(old(State()), k)
    {
      if k !in nodes {
        nodes := nodes[k := NewNodeProps(k)];
      }
    }

    method SetNodeOp(k: NodeKey, us: seq<Update>)
      modifies this
      ensures State() == SetNode(old(State()), k, us)
    {
      if k in nodes {
        nodes := nodes[k := SetProps(nodes[k], us)];
      }
    }

    method MergeEdgeOp(e: EdgeKey)
      modifies this
      ensures State() == MergeEdge(old(State()), e)
    {
      if e.from in nodes && e.to in nodes && e !in edges {
        edges := edges[e := NewEdgeProps(e)];
      }
    }

    method SetEdgeOp(e: EdgeKey, us: seq<Update>)
      modifies this
      ensures State() == SetEdge(old(State()), e, us)
    {
      if e in edges {
        edges := edges[e := SetProps(edges[e], us)];
      }
    }

    /** Returns the number of matched rows, as `RETURN count(*)` does. */
    method MergeEdgesToOp(from: NodeKey, rel: string, targets: set<NodeKey>) returns (linked: nat)
      requires targets <= nodes.Keys
      modifies this
      ensures State() == MergeEdgesTo(old(State()), from, rel, targets)
      ensures linked == if from in old(nodes) then |targets| else 0
    {
      if from in nodes {
        var added := set t | t in targets :: EdgeKey(from, rel, t, None);
        edges := map x | x in edges.Keys + added :: if x in edges then edges[x] else map[];
        linked := |targets|;
      } else {
        linked := 0;
      }
    }
  }
}
