/** The two rooftop platforms and the first-match support lookup over them. */
module Rooftops {
  import opened Common

  /** A platform: its id, the box geometry it is built from, and the extent
      recorded beside the mesh for collision tests. */
  datatype Rooftop = Rooftop(id: nat, centre: real, width: real, depth: real, xMin: real, xMax: real)

  /** The rooftops in the order they are pushed: the starting roof, then the
      second roof across a gap. */
  function CreateRooftops(): (r: seq<Rooftop>)
    ensures |r| == 2
    ensures r[0].id == 0 && r[1].id == 1
    ensures r[0].xMin == -15.0 && r[0].xMax == 15.0
    ensures r[1].xMin == 22.5 && r[1].xMax == 47.5
    ensures forall i :: 0 <= i < |r| ==>
      r[i].xMin == r[i].centre - r[i].width / 2.0 && r[i].xMax == r[i].centre + r[i].width / 2.0
    ensures forall i :: 0 <= i < |r| ==> r[i].depth == 10.0
    ensures r[0].xMax < r[1].xMin && r[1].xMin - r[0].xMax == 7.5
  {
    [ Rooftop(0, 0.0, 30.0, 10.0, -15.0, 15.0),
      Rooftop(1, 35.0, 25.0, 10.0, 22.5, 47.5) ]
  }

  /** Whether a body at (`x`, `z`) is over `roof`, with `tolerance` added on
      each side of the body horizontally. */
  predicate Over(roof: Rooftop, x: real, z: real, tolerance: real) {
    x + tolerance >= roof.xMin && x - tolerance <= roof.xMax && Abs(z) <= roof.depth / 2.0
  }

  /** The first rooftop from index `from` on, in order, that the body is
      over. */
  function FirstOver(roofs: seq<Rooftop>, x: real, z: real, tolerance: real, from: nat): (r: Option<nat>)
    ensures r.Some? ==> from <= r.value < |roofs| && Over(roofs[r.value], x, z, tolerance)
    ensures r.Some? ==> forall j :: from <= j < r.value ==> !Over(roofs[j], x, z, tolerance)
    ensures r.None? <==> forall j :: from <= j < |roofs| ==> !Over(roofs[j], x, z, tolerance)
    decreases |roofs| - from
  {
    if from >= |roofs| then None
    else if Over(roofs[from], x, z, tolerance) then Some(from)
    else FirstOver(roofs, x, z, tolerance, from + 1)
  }

  /** The `for ... of` loop with `break`: the index of the first rooftop, in
      order, that the body is over, or None when it is over none. */
  method FindRooftop(roofs: seq<Rooftop>, x: real, z: real, tolerance: real) returns (found: Option<nat>)
    ensures found.Some? ==> found.value < |roofs| && Over(roofs[found.value], x, z, tolerance)
    ensures found.Some? ==> forall j :: 0 <= j < found.value ==> !Over(roofs[j], x, z, tolerance)
    ensures found.None? <==> forall j :: 0 <= j < |roofs| ==> !Over(roofs[j], x, z, tolerance)
    ensures found == FirstOver(roofs, x, z, tolerance, 0)
  {
    found := None;
    var i := 0;
    while i < |roofs|
      invariant 0 <= i <= |roofs|
      invariant forall j :: 0 <= j < i ==> !Over(roofs[j], x, z, tolerance)
      invariant FirstOver(roofs, x, z, tolerance, i) == FirstOver(roofs, x, z, tolerance, 0)
    {
      if Over(roofs[i], x, z, tolerance) {
        found := Some(i);
        return;
      }
      i := i + 1;
    }
  }

  /** On the game's own rooftops the extents are far enough apart that a body
      with tolerance at most 1.0 is over at most one of them, so the first
      match is the only match. */
  lemma FirstMatchIsOnlyMatch(x: real, z: real, tolerance: real, i: nat)
    requires 0.0 <= tolerance <= 1.0 && i < 2
    ensures FirstOver(CreateRooftops(), x, z, tolerance, 0) == Some(i) <==> Over(CreateRooftops()[i], x, z, tolerance)
  {
    var roofs := CreateRooftops();
    if Over(roofs[i], x, z, tolerance) && i == 1 {
      assert !Over(roofs[0], x, z, tolerance);
      assert FirstOver(roofs, x, z, tolerance, 1) == Some(1);
    }
  }
}
