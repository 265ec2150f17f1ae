/** Directions, the outlines a shape node can show, and the two per-direction
    path tables the actor draws its mouth from. */
module Shapes {

  datatype Option<T> = None | Some(value: T)

  /** The actor's four headings. */
  datatype Direction = Left | Right | Up | Down

  /** A point in scene coordinates (y grows upwards). */
  datatype Point = Point(x: real, y: real)

  /** A count of quarter-turns, taken modulo a full turn. */
  type Turns = n: int | 0 <= n < 4

  /** What a shape node draws. `Circle` is the plain disc a node is created with.
      `Wedge` is an arc of `radius` from `startDegrees` to `endDegrees`, closed by a
      line back to its centre, then turned `quarterTurns` times by 90 degrees. */
  datatype Outline =
    | Circle(radius: real)
    | Wedge(radius: real, startDegrees: int, endDegrees: int, quarterTurns: Turns)

  const Radius: real := 15.0

  /** The wide-open mouth: an arc from 35 to 315 degrees. */
  const OpenStart: int := 35
  const OpenEnd: int := 315

  /** The closed mouth: an arc from 1 to 359 degrees, nearly a full disc. */
  const ClosedStart: int := 1
  const ClosedEnd: int := 359

  /** Number of quarter-turns that carry the Right-facing seed onto `d`. */
  function QuarterTurns(d: Direction): (n: Turns)
    ensures HeadingOf(n) == d
  {
    match d
    case Right => 0
    case Up => 1
    case Left => 2
    case Down => 3
  }

  /** The heading reached after `n` quarter-turns from Right. */
  function HeadingOf(n: Turns): Direction {
    if n == 0 then Right else if n == 1 then Up else if n == 2 then Left else Down
  }

  /** The heading a quarter-turn further round: Right, Up, Left, Down, Right. */
  function NextTurn(d: Direction): (r: Direction)
    ensures QuarterTurns(r) == (QuarterTurns(d) + 1) % 4
  {
    match d
    case Right => Up
    case Up => Left
    case Left => Down
    case Down => Right
  }

  /** The heading a wedge faces; a circle faces nowhere. */
  function Facing(o: Outline): Option<Direction> {
    match o
    case Circle(_) => None
    case Wedge(_, _, _, q) => Some(HeadingOf(q))
  }

  predicate IsOpenMouth(o: Outline) {
    o.Wedge? && o.startDegrees == OpenStart && o.endDegrees == OpenEnd
  }

  predicate IsClosedMouth(o: Outline) {
    o.Wedge? && o.startDegrees == ClosedStart && o.endDegrees == ClosedEnd
  }

  /** The Right-facing wedge of radius 15 (drawn about (15, 15); the model does not
      record the centre). */
  function Seed(startDegrees: int, endDegrees: int): Outline {
    Wedge(Radius, startDegrees, endDegrees, 0)
  }

  /** A quarter-turn about the outline's own centre; a circle is unchanged by it. */
  function Rotated(o: Outline): (r: Outline)
    ensures Facing(o).Some? ==> Facing(r) == Some(NextTurn(Facing(o).value))
    ensures o.Wedge? ==>
              r.Wedge? && r.radius == o.radius && r.startDegrees == o.startDegrees && r.endDegrees == o.endDegrees
    ensures o.Circle? ==> r == o
  {
    match o
    case Circle(_) => o
    case Wedge(rad, s, e, q) => Wedge(rad, s, e, (q + 1) % 4)
  }

  /** `n` successive quarter-turns. */
  function RotatedBy(o: Outline, n: nat): Outline {
    if n == 0 then o else Rotated(RotatedBy(o, n - 1))
  }

  lemma {:induction false} RotatedByTurns(o: Outline, n: nat)
    ensures RotatedBy(o, n) == if o.Wedge? then o.(quarterTurns := (o.quarterTurns + n) % 4) else o
  {
    if n > 0 {
      RotatedByTurns(o, n - 1);
    }
  }

  /** Four quarter-turns give back the outline they started from. */
  lemma FullTurnIsIdentity(o: Outline)
    ensures RotatedBy(o, 4) == o
  {
    RotatedByTurns(o, 4);
  }

  /** The table of one mouth shape: for every heading, the wedge turned to face it. */
  function PathTable(startDegrees: int, endDegrees: int): map<Direction, Outline> {
    map[Right := Wedge(Radius, startDegrees, endDegrees, 0),
        Up := Wedge(Radius, startDegrees, endDegrees, 1),
        Left := Wedge(Radius, startDegrees, endDegrees, 2),
        Down := Wedge(Radius, startDegrees, endDegrees, 3)]
  }

  /** Every heading has exactly one entry; Right holds the seed and each other heading
      the seed after as many quarter-turns as carry Right onto it; each entry faces its
      heading; and turning the entry for `d` gives the entry for the next heading. */
  lemma PathTableShape(startDegrees: int, endDegrees: int)
    ensures var t := PathTable(startDegrees, endDegrees);
      && t.Keys == {Left, Right, Up, Down}
      && t[Right] == Seed(startDegrees, endDegrees)
      && (forall d :: d in t && t[d] == RotatedBy(Seed(startDegrees, endDegrees), QuarterTurns(d)))
      && (forall d :: Facing(t[d]) == Some(d))
      && (forall d :: t[NextTurn(d)] == Rotated(t[d]))
  {
    forall d {
      PathTableEntry(startDegrees, endDegrees, d);
    }
  }

  lemma PathTableEntry(startDegrees: int, endDegrees: int, d: Direction)
    ensures d in PathTable(startDegrees, endDegrees)
    ensures PathTable(startDegrees, endDegrees)[d] == Wedge(Radius, startDegrees, endDegrees, QuarterTurns(d))
    ensures PathTable(startDegrees, endDegrees)[d] == RotatedBy(Seed(startDegrees, endDegrees), QuarterTurns(d))
  {
    RotatedByTurns(Seed(startDegrees, endDegrees), QuarterTurns(d));
    match d
    case Right =>
    case Up =>
    case Left =>
    case Down =>
  }

  /** The order in which `createPaths` stores the turned copies. */
  const TurnOrder: seq<Direction> := [Up, Left, Down]

  /** The dictionary after the seed and the first `k` turned copies are stored. */
  ghost function Filled(dic0: map<Direction, Outline>, seed: Outline, k: nat): map<Direction, Outline>
    requires k <= |TurnOrder|
  {
    if k == 0 then dic0[Right := seed] else Filled(dic0, seed, k - 1)[TurnOrder[k - 1] := RotatedBy(seed, k)]
  }

  /** `createPaths(startDegrees, endDegrees, &dic)`: stores the seed under Right, then
      turns the path a quarter at a time and stores it under Up, Left and Down. */
  method CreatePaths(startDegrees: int, endDegrees: int, dic0: map<Direction, Outline>)
    returns (dic: map<Direction, Outline>)
    ensures dic == dic0 + PathTable(startDegrees, endDegrees)
  {
    var path := Seed(startDegrees, endDegrees);
    ghost var seed := path;
    dic := dic0[Right := path];
    for k := 0 to |TurnOrder|
      invariant path == RotatedBy(seed, k)
      invariant dic == Filled(dic0, seed, k)
    {
      path := Rotated(path);
      dic := dic[TurnOrder[k] := path];
    }
    assert Filled(dic0, seed, 1) == dic0[Right := seed][Up := RotatedBy(seed, 1)];
    assert Filled(dic0, seed, 2) == Filled(dic0, seed, 1)[Left := RotatedBy(seed, 2)];
    assert Filled(dic0, seed, 3) == Filled(dic0, seed, 2)[Down := RotatedBy(seed, 3)];
    RotatedByTurns(seed, 1);
    RotatedByTurns(seed, 2);
    RotatedByTurns(seed, 3);
  }
}
