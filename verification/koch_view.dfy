/**
 A model of the drawing side of the Koch-Snowflake application: the shape
 that turns the session's vertex buffer into a path. The path is a polyline:
 a move to the first vertex, then one straight line to each later vertex.
 Stroke, colour and frame are presentation only and are not modelled.
 */
module KochView {

  /** One command of a drawing path. */
  datatype PathCmd<P> = MoveTo(to: P) | LineTo(to: P)

  /** A path that draws one connected polyline: it is empty, or it starts
      with a move and continues with lines only. */
  predicate IsPolyline<P>(cmds: seq<PathCmd<P>>) {
    cmds == [] || (cmds[0].MoveTo? && forall i :: 1 <= i < |cmds| ==> cmds[i].LineTo?)
  }

  /** The vertices a path visits, in drawing order. */
  function Vertices<P>(cmds: seq<PathCmd<P>>): (vs: seq<P>)
    ensures |vs| == |cmds|
    ensures forall i :: 0 <= i < |cmds| ==> vs[i] == cmds[i].to
  {
    seq(|cmds|, i requires 0 <= i < |cmds| => cmds[i].to)
  }

  /** `KochFractalShape.path(in:)`: an empty buffer gives an empty path;
      otherwise move to the first point and add a line to each later point,
      in order. The result is the polyline through exactly the given points. */
  method Path<P>(points: seq<P>) returns (path: seq<PathCmd<P>>)
    ensures points == [] ==> path == []
    ensures |path| == |points|
    ensures points != [] ==> path[0] == MoveTo(points[0])
    ensures forall i :: 1 <= i < |points| ==> path[i] == LineTo(points[i])
    ensures IsPolyline(path) && Vertices(path) == points
  {
    path := [];
    if |points| == 0 {
      return;
    }
    path := [MoveTo(points[0])];
    for item := 1 to |points|
      invariant |path| == item
      invariant path[0] == MoveTo(points[0])
      invariant forall i :: 1 <= i < item ==> path[i] == LineTo(points[i])
    {
      path := path + [LineTo(points[item])];
    }
  }

  /** A polyline is determined by the vertices it visits: two polylines
      through the same vertex list are the same path. Together with the
      contract of `Path`, this says `Path` is the one polyline through its
      input. */
  lemma PolylineDeterminedByVertices<P>(a: seq<PathCmd<P>>, b: seq<PathCmd<P>>)
    requires IsPolyline(a) && IsPolyline(b)
    requires Vertices(a) == Vertices(b)
    ensures a == b
  {
    assert |a| == |b|;
    forall i | 0 <= i < |a|
      ensures a[i] == b[i]
    {
      assert a[i].to == Vertices(a)[i] == Vertices(b)[i] == b[i].to;
    }
  }
}
