/** The actor's control logic as values: the swipe classifier, the movement chosen
    for a heading, and the state machine that swipes and frame ticks drive. Both
    game scenes run this same logic; their classes are specified by it. */
module Control {
  import opened Shapes

  /** One arm of the `switch Int(degrees)`: a closed integer range and its heading. */
  datatype Arm = Arm(lo: int, hi: int, heading: Direction)

  /** The switch's arms in source order; the first arm whose range holds the
      angle wins, and an angle no arm holds gives Up. */
  const SwipeArms: seq<Arm> := [Arm(-135, -45, Right), Arm(-45, 45, Down), Arm(45, 135, Left)]

  function FirstMatch(arms: seq<Arm>, d: int, otherwise: Direction): Direction {
    if arms == [] then otherwise
    else if arms[0].lo <= d <= arms[0].hi then arms[0].heading
    else FirstMatch(arms[1..], d, otherwise)
  }

  /** The heading for a swipe whose angle, truncated to whole degrees, is `degrees`.
      Because the ranges overlap at their ends and the first match wins, the shared
      ends -45, 45 and 135 belong to the earlier arm. */
  function Classify(degrees: int): (r: Direction)
    ensures r == Right <==> -135 <= degrees <= -45
    ensures r == Down <==> -45 < degrees <= 45
    ensures r == Left <==> 45 < degrees <= 135
    ensures r == Up <==> degrees < -135 || 135 < degrees
  {
    var tail := [Arm(45, 135, Left)];
    assert tail[1..] == [];
    assert FirstMatch(tail, degrees, Up) == if 45 <= degrees <= 135 then Left else Up;
    assert SwipeArms[1..][1..] == tail;
    var middle := [Arm(-45, 45, Down)] + tail;
    assert middle[1..] == tail;
    assert FirstMatch(middle, degrees, Up) == if -45 <= degrees <= 45 then Down else FirstMatch(tail, degrees, Up);
    assert SwipeArms[1..] == middle;
    FirstMatch(SwipeArms, degrees, Up)
  }

  /** The truncated angle the source computes, `Int(atan2(from.x - to.x, from.y - to.y))`
      in degrees, for a swipe along an axis; None for a diagonal swipe or no swipe,
      whose angle needs floating-point trigonometry. */
  function AxisAngle(from: Point, to: Point): (r: Option<int>)
    ensures r.Some? <==> from != to && (from.x == to.x || from.y == to.y)
    ensures r == Some(0) <==> from.x == to.x && to.y < from.y
    ensures r == Some(180) <==> from.x == to.x && to.y > from.y
    ensures r == Some(90) <==> from.y == to.y && to.x < from.x
    ensures r == Some(-90) <==> from.y == to.y && to.x > from.x
  {
    var dx, dy := from.x - to.x, from.y - to.y;
    if dx == 0.0 && dy > 0.0 then Some(0)
    else if dx == 0.0 && dy < 0.0 then Some(180)
    else if dy == 0.0 && dx > 0.0 then Some(90)
    else if dy == 0.0 && dx < 0.0 then Some(-90)
    else None
  }

  /** A movement: `SKAction.moveByX(dx, y: dy, duration:)`, repeated for ever. */
  datatype Move = MoveBy(dx: real, dy: real, duration: real)

  const Delta: real := 25.0
  const MoveDuration: real := 0.1

  /** `actionForDirection`: a step of 25 points every 0.1 s along the heading. */
  function ActionForDirection(d: Direction): (m: Move)
    ensures m.duration == MoveDuration
    ensures m.dx * m.dy == 0.0 && m.dx * m.dx + m.dy * m.dy == Delta * Delta
    ensures m.dy > 0.0 <==> d == Up
    ensures m.dy < 0.0 <==> d == Down
    ensures m.dx > 0.0 <==> d == Right
    ensures m.dx < 0.0 <==> d == Left
  {
    match d
    case Up => MoveBy(0.0, Delta, MoveDuration)
    case Down => MoveBy(0.0, -Delta, MoveDuration)
    case Right => MoveBy(Delta, 0.0, MoveDuration)
    case _ => MoveBy(-Delta, 0.0, MoveDuration)
  }

  /** A swipe along an axis turns the actor the way the finger moved, and the
      movement it then gets carries the sprite that way too. */
  lemma AxisSwipeFollowsFinger(from: Point, to: Point)
    requires AxisAngle(from, to).Some?
    ensures var d := Classify(AxisAngle(from, to).value);
      && (to.y > from.y <==> d == Up)
      && (to.y < from.y <==> d == Down)
      && (to.x > from.x <==> d == Right)
      && (to.x < from.x <==> d == Left)
      && (ActionForDirection(d).dx > 0.0 <==> to.x > from.x)
      && (ActionForDirection(d).dy > 0.0 <==> to.y > from.y)
  {
  }

  /** The actor's state: the four controller fields of the source plus what its
      sprite shows (`sprite.path`) and the movement running on it (`Move` key). */
  datatype Actor = Actor(
    direction: Direction,
    needsToUpdateDirection: bool,
    wasClosedPath: bool,
    lastChange: real,
    shown: Outline,
    move: Option<Move>)

  /** The two per-direction tables the mouth is drawn from. */
  datatype PathTables = PathTables(open: map<Direction, Outline>, closed: map<Direction, Outline>)

  function StandardTables(): PathTables {
    PathTables(PathTable(OpenStart, OpenEnd), PathTable(ClosedStart, ClosedEnd))
  }

  /** The actor right after set-up: facing Right, flag clear, showing the open
      Right mouth, with no movement started. */
  function Initial(now: real): Actor {
    Actor(Right, false, false, now, Seed(OpenStart, OpenEnd), None)
  }

  const ChompInterval: real := 0.25

  /** The chomp fires on a pending direction change or once more than 0.25 s has
      passed since the last toggle. */
  predicate ChompDue(a: Actor, now: real) {
    a.needsToUpdateDirection || now - a.lastChange > ChompInterval
  }

  /** `animateChomp`: show the open outline for the heading if the mouth was closed
      and the closed one otherwise (when the table has an entry), flip the mouth and
      remember the time. */
  function AfterChomp(a: Actor, t: PathTables, now: real): (r: Actor)
    ensures !ChompDue(a, now) ==> r == a
    ensures ChompDue(a, now) ==>
              && r.wasClosedPath == !a.wasClosedPath
              && r.lastChange == now
              && r.direction == a.direction
              && r.needsToUpdateDirection == a.needsToUpdateDirection
              && r.move == a.move
    ensures ChompDue(a, now) && t == StandardTables() ==>
              r.shown == Wedge(Radius, if a.wasClosedPath then OpenStart else ClosedStart,
                               if a.wasClosedPath then OpenEnd else ClosedEnd, QuarterTurns(a.direction))
  {
    if !ChompDue(a, now) then a
    else
      var table := if a.wasClosedPath then t.open else t.closed;
      var shown := if a.direction in table then table[a.direction] else a.shown;
      a.(shown := shown, wasClosedPath := !a.wasClosedPath, lastChange := now)
  }

  /** `handleSwipe`: a swipe that goes nowhere is ignored; otherwise the heading
      becomes the swipe's class and the flag is raised if the heading changed. */
  function AfterSwipe(a: Actor, from: Point, to: Point, degrees: int): (r: Actor)
    ensures from == to ==> r == a
    ensures from != to ==> r.direction == Classify(degrees)
    ensures r.needsToUpdateDirection <==> a.needsToUpdateDirection || r.direction != a.direction
    ensures r.(direction := a.direction, needsToUpdateDirection := a.needsToUpdateDirection) == a
  {
    if from == to then a
    else
      var oldDirection := a.direction;
      var b := a.(direction := Classify(degrees));
      if oldDirection != b.direction then b.(needsToUpdateDirection := true) else b
  }

  /** `updateDirection`: with the flag clear nothing happens; otherwise the running
      movement is replaced by the one for the heading and the flag is cleared. */
  function AfterUpdateDirection(a: Actor): (r: Actor)
    ensures !r.needsToUpdateDirection
    ensures !a.needsToUpdateDirection ==> r == a
    ensures a.needsToUpdateDirection ==> r.move == Some(ActionForDirection(a.direction))
    ensures r.(move := a.move, needsToUpdateDirection := a.needsToUpdateDirection) == a
  {
    if !a.needsToUpdateDirection then a
    else a.(move := Some(ActionForDirection(a.direction)), needsToUpdateDirection := false)
  }

  /** What one frame does to the actor: the chomp, then the direction update. */
  function AfterTick(a: Actor, t: PathTables, now: real): (r: Actor)
    ensures !r.needsToUpdateDirection && r.direction == a.direction
    ensures r.wasClosedPath == (a.wasClosedPath != ChompDue(a, now))
    ensures r.lastChange == if ChompDue(a, now) then now else a.lastChange
    ensures !ChompDue(a, now) ==> r.shown == a.shown
    ensures r.move == if a.needsToUpdateDirection then Some(ActionForDirection(a.direction)) else a.move
  {
    AfterUpdateDirection(AfterChomp(a, t, now))
  }

  /** A frame always leaves the flag clear, and a second frame at the same instant
      changes nothing: its chomp is not due and its direction update is idle. */
  lemma TickSettles(a: Actor, t: PathTables, now: real)
    ensures var b := AfterTick(a, t, now);
      && !b.needsToUpdateDirection
      && !ChompDue(b, now)
      && AfterChomp(b, t, now) == b
      && AfterTick(b, t, now) == b
  {
  }

  /** The mouth flag agrees with the outline shown. */
  ghost predicate MouthShown(a: Actor) {
    a.wasClosedPath <==> IsClosedMouth(a.shown)
  }

  lemma ChompKeepsMouth(a: Actor, now: real)
    requires MouthShown(a)
    ensures MouthShown(AfterChomp(a, StandardTables(), now))
  {
  }

  /** With no direction change pending, the sprite faces the heading and moves
      along it, or has not moved yet and still faces Right. */
  ghost predicate Settled(a: Actor) {
    !a.needsToUpdateDirection ==>
      && Facing(a.shown) == Some(a.direction)
      && (a.move == Some(ActionForDirection(a.direction)) || (a.move == None && a.direction == Right))
  }

  /** The inputs the actor reacts to. */
  datatype Event =
    | Swiped(from: Point, to: Point, degrees: int)
    | Ticked(now: real)

  function Step(a: Actor, t: PathTables, e: Event): Actor {
    match e
    case Swiped(from, to, degrees) => AfterSwipe(a, from, to, degrees)
    case Ticked(now) => AfterTick(a, t, now)
  }

  function Run(a: Actor, t: PathTables, events: seq<Event>): Actor
    decreases |events|
  {
    if events == [] then a else Run(Step(a, t, events[0]), t, events[1..])
  }

  lemma StepKeepsInvariants(a: Actor, e: Event)
    requires MouthShown(a) && Settled(a)
    ensures MouthShown(Step(a, StandardTables(), e)) && Settled(Step(a, StandardTables(), e))
  {
    var t := StandardTables();
    PathTableShape(OpenStart, OpenEnd);
    PathTableShape(ClosedStart, ClosedEnd);
    match e
    case Swiped(from, to, degrees) =>
    case Ticked(now) =>
      var c := AfterChomp(a, t, now);
      if ChompDue(a, now) {
        assert Facing(c.shown) == Some(a.direction);
      }
  }

  /** Whatever swipes and frames arrive, the mouth flag keeps agreeing with the
      outline shown, and once no change is pending the sprite faces and moves
      along its heading. */
  lemma {:induction false} RunKeepsInvariants(a: Actor, events: seq<Event>)
    requires MouthShown(a) && Settled(a)
    ensures MouthShown(Run(a, StandardTables(), events)) && Settled(Run(a, StandardTables(), events))
    decreases |events|
  {
    if events != [] {
      StepKeepsInvariants(a, events[0]);
      RunKeepsInvariants(Step(a, StandardTables(), events[0]), events[1..]);
    }
  }

  lemma InitialIsSettled(now: real)
    ensures MouthShown(Initial(now)) && Settled(Initial(now))
  {
  }

  /** A swipe that turns the actor no other way than Right, the heading it starts
      with. */
  predicate KeepsRight(e: Event) {
    e.Swiped? ==> e.from == e.to || Classify(e.degrees) == Right
  }

  /** The set-up calls `updateDirection` while the flag is clear, so no movement is
      started: until a swipe turns the actor away from Right, the sprite stays put. */
  lemma {:induction false} StandsStillUntilTurned(a: Actor, t: PathTables, events: seq<Event>)
    requires a.direction == Right && !a.needsToUpdateDirection && a.move == None
    requires forall i :: 0 <= i < |events| ==> KeepsRight(events[i])
    ensures var r := Run(a, t, events);
      r.direction == Right && !r.needsToUpdateDirection && r.move == None
    decreases |events|
  {
    if events != [] {
      assert KeepsRight(events[0]);
      StandsStillUntilTurned(Step(a, t, events[0]), t, events[1..]);
    }
  }

  /** The first frame after a swipe that changes the heading toggles the mouth at
      once, however little time has passed, shows the new heading and starts the
      movement along it. */
  lemma TurnTakesEffectNextFrame(a: Actor, from: Point, to: Point, degrees: int, now: real)
    requires from != to && Classify(degrees) != a.direction
    ensures var r := AfterTick(AfterSwipe(a, from, to, degrees), StandardTables(), now);
      && r.direction == Classify(degrees)
      && r.wasClosedPath == !a.wasClosedPath
      && r.lastChange == now
      && Facing(r.shown) == Some(Classify(degrees))
      && r.move == Some(ActionForDirection(Classify(degrees)))
      && !r.needsToUpdateDirection
  {
    PathTableShape(OpenStart, OpenEnd);
    PathTableShape(ClosedStart, ClosedEnd);
  }

  /** With no swipe, the mouth toggles on the first frame more than 0.25 s after the
      last toggle, and not before. */
  lemma ChompCadence(a: Actor, t: PathTables, now: real)
    requires !a.needsToUpdateDirection
    ensures AfterTick(a, t, now).wasClosedPath != a.wasClosedPath <==> now > a.lastChange + ChompInterval
    ensures now <= a.lastChange + ChompInterval ==> AfterTick(a, t, now) == a
  {
  }

  /** One upward swipe from the starting state, then one frame: the actor faces Up,
      moves 25 points up every 0.1 s and shows the closed Up mouth, because the
      starting state shows the open mouth with the mouth flag clear. */
  lemma SwipeUpScenario(t0: real, t1: real)
    ensures var from, to := Point(0.0, 0.0), Point(0.0, 10.0);
      && AxisAngle(from, to) == Some(180)
      && var r := AfterTick(AfterSwipe(Initial(t0), from, to, 180), StandardTables(), t1);
      && r.direction == Up
      && r.move == Some(MoveBy(0.0, 25.0, 0.1))
      && r.shown == Wedge(15.0, 1, 359, 1)
      && r.wasClosedPath
      && !r.needsToUpdateDirection
  {
    PathTableShape(ClosedStart, ClosedEnd);
  }
}
