/**
 * The graph container the reconciler works on: vertices with object identity, each wrapping
 * one resource, and directed edges carrying a name. Only the operations the reconciler calls
 * are modelled.
 */
module PGraph {
  import opened Resources

  /** A vertex wraps exactly one resource; two vertices are the same only if they are one object. */
  class Vertex {
    const res: Resource

    constructor (res: Resource)
      ensures this.res == res
    {
      this.res := res;
    }
  }

  datatype Edge = Edge(from: Vertex, to: Vertex, name: string)

  /**
   * Resources are matched by a caller-supplied relation (existing vertex's resource, candidate);
   * it stands for the per-kind comparison of kind, name and parameters.
   */
  type MatchFn = (Resource, Resource) -> bool

  class Graph {
    var name: string
    var vertices: set<Vertex>
    var edges: set<Edge>

    /** Every edge joins two vertices of the graph. */
    ghost predicate Valid()
      reads this
    {
      forall e :: e in edges ==> e.from in vertices && e.to in vertices
    }

    constructor (name: string)
      ensures Valid()
      ensures this.name == name && vertices == {} && edges == {}
    {
      this.name := name;
      vertices := {};
      edges := {};
    }

    /** A new graph with the same vertex objects; its membership and edges are its own. */
    method Copy() returns (h: Graph)
      requires Valid()
      ensures fresh(h) && h.Valid()
      ensures h.name == name && h.vertices == vertices && h.edges == edges
    {
      h := new Graph(name);
      h.vertices := vertices;
      h.edges := edges;
    }

    method SetName(name: string)
      requires Valid()
      modifies this
      ensures Valid()
      ensures this.name == name && vertices == old(vertices) && edges == old(edges)
    {
      this.name := name;
    }

    method AddVertex(v: Vertex)
      requires Valid()
      modifies this
      ensures Valid()
      ensures vertices == old(vertices) + {v}
      ensures name == old(name) && edges == old(edges)
    {
      vertices := vertices + {v};
    }

    /** Removes a vertex together with every edge that touches it. */
    method DeleteVertex(v: Vertex)
      requires Valid()
      modifies this
      ensures Valid()
      ensures vertices == old(vertices) - {v}
      ensures edges == set e | e in old(edges) && e.from != v && e.to != v
      ensures name == old(name)
    {
      vertices := vertices - {v};
      edges := set e | e in edges && e.from != v && e.to != v;
    }

    /** Adds a named edge, adding its end points as vertices if they are missing. */
    method AddEdge(from: Vertex, to: Vertex, name: string)
      requires Valid()
      modifies this
      ensures Valid()
      ensures vertices == old(vertices) + {from, to}
      ensures edges == old(edges) + {Edge(from, to, name)}
      ensures this.name == old(this.name)
    {
      vertices := vertices + {from, to};
      edges := edges + {Edge(from, to, name)};
    }

    /** Some vertex whose resource matches res, or null when there is none. */
    method GetVertexMatch(res: Resource, matches: MatchFn) returns (v: Vertex?)
      ensures v != null ==> v in vertices && matches(v.res, res)
      ensures v == null <==> forall w :: w in vertices ==> !matches(w.res, res)
    {
      if exists w :: w in vertices && matches(w.res, res) {
        v :| v in vertices && matches(v.res, res);
      } else {
        v := null;
      }
    }
  }
}
