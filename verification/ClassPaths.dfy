/** Which parts of a node each traffic class keeps out of. */
module ClassPaths {
  import opened Model
  import opened PathSearch
  import opened DualRail
  import opened EngineSpec

  /** The kinds of endpoint a class never passes. */
  predicate Shuns(cls: TrafficClass, kind: EndpointType) {
    match cls
    case TensorParallel => kind == CPU || kind == CXLController
    case PipelineParallel => false
    case KVMigration => kind == CPU
  }

  predicate Passes(vertices: seq<EndpointId>, edges: seq<GraphEdge>, p: seq<nat>, i: nat, cls: TrafficClass)
    requires Sound(vertices, edges) && Indexes(edges, p) && i < |p|
  {
    Shuns(cls, vertices[edges[p[i]].src].kind) || Shuns(cls, vertices[edges[p[i]].dst].kind)
  }

  /** A link is kept from a class exactly when one of its ends is. */
  lemma LinkAdmitted(cls: TrafficClass, a: EndpointId, b: EndpointId, attrs: EdgeAttributes)
    requires Link(a, b) == Wired(attrs)
    ensures Admits(cls, attrs.fabric) <==> !Shuns(cls, a.kind) && !Shuns(cls, b.kind)
  {
  }

  /** On a wired cluster a class may take a path if and only if it passes no CPU (KV migrations), no
      CPU and no CXL controller (tensor parallel); pipeline traffic may take any. */
  lemma AdmittedIff(vertices: seq<EndpointId>, edges: seq<GraphEdge>, cls: TrafficClass, p: seq<nat>)
    requires Sound(vertices, edges) && Indexes(edges, p)
    ensures PathAdmitted(edges, cls, p) <==> forall i :: 0 <= i < |p| ==> !Passes(vertices, edges, p, i, cls)
  {
    hide Link, Admits, Shuns;
    forall i | 0 <= i < |p|
      ensures Admits(cls, edges[p[i]].attrs.fabric) <==> !Passes(vertices, edges, p, i, cls)
    {
      var e := edges[p[i]];
      LinkAdmitted(cls, vertices[e.src], vertices[e.dst], e.attrs);
    }
  }
}
