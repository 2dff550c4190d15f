/** `bounds(lines)`: the smallest box holding the origin and every point of
    every line, found by widening `[0, 0, 0, 0]` one point at a time. */
module BoundingBox {

  /** A point with evaluated coordinates. */
  datatype Vec = Vec(x: real, y: real)

  /** The four numbers `[minx, miny, maxx, maxy]`. */
  datatype Box = Box(minX: real, minY: real, maxX: real, maxY: real)

  /** The box the fold starts from: the origin alone. */
  function Zero(): Box {
    Box(0.0, 0.0, 0.0, 0.0)
  }

  predicate Contains(b: Box, p: Vec) {
    b.minX <= p.x <= b.maxX && b.minY <= p.y <= b.maxY
  }

  /** `b` lies inside `c`. */
  predicate Inside(b: Box, c: Box) {
    c.minX <= b.minX && b.maxX <= c.maxX && c.minY <= b.minY && b.maxY <= c.maxY
  }

  /** The four comparisons the inner loop makes for one point: each bound
      moves only when the point lies beyond it. */
  function Include(b: Box, p: Vec): (r: Box)
    ensures Contains(r, p)
    ensures b.minX <= b.maxX && b.minY <= b.maxY ==> Inside(b, r)
  {
    Box(if p.x < b.minX then p.x else b.minX,
        if p.y < b.minY then p.y else b.minY,
        if p.x > b.maxX then p.x else b.maxX,
        if p.y > b.maxY then p.y else b.maxY)
  }

  /** The box after the points of `ps`, taken in order, starting from `b`. */
  function Fit(b: Box, ps: seq<Vec>): Box {
    if ps == [] then b else Include(Fit(b, ps[..|ps| - 1]), ps[|ps| - 1])
  }

  /** The points of all lines, line after line. */
  function Flatten(lines: seq<seq<Vec>>): seq<Vec> {
    if lines == [] then [] else Flatten(lines[..|lines| - 1]) + lines[|lines| - 1]
  }

  /** The bounding box `bounds` computes. */
  function BoxOf(lines: seq<seq<Vec>>): Box {
    Fit(Zero(), Flatten(lines))
  }

  /** `bounds(lines)`: the nested loops update a four-element array in place. */
  method Bounds(lines: seq<seq<Vec>>) returns (b: array<real>)
    ensures fresh(b) && b.Length == 4
    ensures Box(b[0], b[1], b[2], b[3]) == BoxOf(lines)
  {
    b := new real[4];
    b[0], b[1], b[2], b[3] := 0.0, 0.0, 0.0, 0.0;
    for i := 0 to |lines|
      invariant Box(b[0], b[1], b[2], b[3]) == Fit(Zero(), Flatten(lines[..i]))
    {
      var line := lines[i];
      assert Flatten(lines[..i]) + line[..0] == Flatten(lines[..i]);
      for j := 0 to |line|
        invariant Box(b[0], b[1], b[2], b[3]) == Fit(Zero(), Flatten(lines[..i]) + line[..j])
      {
        var p := line[j];
        FitStep(Zero(), Flatten(lines[..i]), line, j);
        if p.x < b[0] { b[0] := p.x; }
        if p.y < b[1] { b[1] := p.y; }
        if p.x > b[2] { b[2] := p.x; }
        if p.y > b[3] { b[3] := p.y; }
      }
      FlattenStep(lines, i);
    }
    assert lines[..|lines|] == lines;
  }

  /** One more point of the current line extends the fold by one step. */
  lemma FitStep(b: Box, done: seq<Vec>, line: seq<Vec>, j: nat)
    requires j < |line|
    ensures Fit(b, done + line[..j + 1]) == Include(Fit(b, done + line[..j]), line[j])
  {
    assert (done + line[..j + 1])[..|done| + j] == done + line[..j];
  }

  /** A finished line joins the flattened prefix. */
  lemma FlattenStep(lines: seq<seq<Vec>>, i: nat)
    requires i < |lines|
    ensures Flatten(lines[..i + 1]) == Flatten(lines[..i]) + lines[i][..|lines[i]|]
  {
    assert lines[..i + 1][..i] == lines[..i];
    assert lines[i][..|lines[i]|] == lines[i];
  }

  // ---------------------------------------------------------------------
  // What the box is

  /** The fold only widens: from a proper box, it ends in a proper box that
      holds the start box and every point. */
  lemma {:induction false} FitGrows(b: Box, ps: seq<Vec>)
    requires b.minX <= b.maxX && b.minY <= b.maxY
    ensures Inside(b, Fit(b, ps))
    ensures forall i :: 0 <= i < |ps| ==> Contains(Fit(b, ps), ps[i])
    decreases |ps|
  {
    if ps != [] {
      var init := ps[..|ps| - 1];
      FitGrows(b, init);
      var r := Fit(b, ps);
      forall i | 0 <= i < |ps|
        ensures Contains(r, ps[i])
      {
        if i < |ps| - 1 {
          assert ps[i] == init[i];
        }
      }
    }
  }

  /** Each bound of the fold is the start bound or the coordinate of one of
      the points: the box is no larger than it must be. */
  lemma {:induction false} FitTight(b: Box, ps: seq<Vec>)
    ensures var r := Fit(b, ps);
      && (r.minX == b.minX || exists i :: 0 <= i < |ps| && ps[i].x == r.minX)
      && (r.minY == b.minY || exists i :: 0 <= i < |ps| && ps[i].y == r.minY)
      && (r.maxX == b.maxX || exists i :: 0 <= i < |ps| && ps[i].x == r.maxX)
      && (r.maxY == b.maxY || exists i :: 0 <= i < |ps| && ps[i].y == r.maxY)
    decreases |ps|
  {
    if ps != [] {
      var init := ps[..|ps| - 1];
      FitTight(b, init);
      forall i | 0 <= i < |init|
        ensures ps[i] == init[i]
      {
      }
    }
  }

  /** A point of the flattened lines is a point of one of the lines, and
      back. */
  lemma {:induction false} FlattenMembers(lines: seq<seq<Vec>>)
    ensures forall p :: p in Flatten(lines) <==> exists k :: 0 <= k < |lines| && p in lines[k]
    decreases |lines|
  {
    if lines != [] {
      var init := lines[..|lines| - 1];
      FlattenMembers(init);
      forall k | 0 <= k < |init|
        ensures init[k] == lines[k]
      {
      }
    }
  }

  /** `bounds` holds the origin and every point of every line. */
  lemma BoundsContain(lines: seq<seq<Vec>>)
    ensures BoxOf(lines).minX <= 0.0 <= BoxOf(lines).maxX
    ensures BoxOf(lines).minY <= 0.0 <= BoxOf(lines).maxY
    ensures forall k, j :: 0 <= k < |lines| && 0 <= j < |lines[k]| ==> Contains(BoxOf(lines), lines[k][j])
  {
    var ps := Flatten(lines);
    FitGrows(Zero(), ps);
    FlattenMembers(lines);
    forall k, j | 0 <= k < |lines| && 0 <= j < |lines[k]|
      ensures Contains(BoxOf(lines), lines[k][j])
    {
      assert lines[k][j] in lines[k];
      assert lines[k][j] in ps;
    }
  }

  /** Each bound of `bounds` is 0 or a coordinate of some point of some
      line; with `BoundsContain`, it is the least (or greatest) of 0 and the
      coordinates. */
  lemma BoundsTight(lines: seq<seq<Vec>>)
    ensures var r := BoxOf(lines);
      && (r.minX == 0.0 || exists k, j :: 0 <= k < |lines| && 0 <= j < |lines[k]| && lines[k][j].x == r.minX)
      && (r.minY == 0.0 || exists k, j :: 0 <= k < |lines| && 0 <= j < |lines[k]| && lines[k][j].y == r.minY)
      && (r.maxX == 0.0 || exists k, j :: 0 <= k < |lines| && 0 <= j < |lines[k]| && lines[k][j].x == r.maxX)
      && (r.maxY == 0.0 || exists k, j :: 0 <= k < |lines| && 0 <= j < |lines[k]| && lines[k][j].y == r.maxY)
  {
    var ps := Flatten(lines);
    FitTight(Zero(), ps);
    FlattenMembers(lines);
    forall i | 0 <= i < |ps|
      ensures exists k, j :: 0 <= k < |lines| && 0 <= j < |lines[k]| && lines[k][j] == ps[i]
    {
      assert ps[i] in ps;
      var k :| 0 <= k < |lines| && ps[i] in lines[k];
      var j :| 0 <= j < |lines[k]| && lines[k][j] == ps[i];
    }
  }

  /** Without any point, `bounds` is `[0, 0, 0, 0]`. */
  lemma {:induction false} BoundsEmpty(lines: seq<seq<Vec>>)
    requires forall k :: 0 <= k < |lines| ==> lines[k] == []
    ensures BoxOf(lines) == Zero()
    decreases |lines|
  {
    if lines != [] {
      var init := lines[..|lines| - 1];
      BoundsEmpty(init);
      assert Flatten(lines) == Flatten(init);
    }
  }
}
