/** The game built around a separate actor object: `Swacman` owns the paths, the
    controller fields and the sprite, and the scene forwards touches and frames to it. */
module SwacmanGame {
  import opened Shapes
  import opened Control
  import opened Wrap
  import opened Nodes

  class Swacman {
    var openDirectionPaths: map<Direction, Outline>
    var closedDirectionPaths: map<Direction, Outline>
    var wasClosedPath: bool
    var needsToUpdateDirection: bool
    var direction: Direction
    var lastChange: real
    const sprite: ShapeNode

    /** The actor as a value: the controller fields and what the sprite shows and runs. */
    ghost function State(): Actor
      reads this, sprite
    {
      Actor(direction, needsToUpdateDirection, wasClosedPath, lastChange, sprite.path, sprite.move)
    }

    ghost function Tables(): PathTables
      reads this
    {
      PathTables(openDirectionPaths, closedDirectionPaths)
    }

    /** The tables are the ones set-up builds, and the mouth flag agrees with the
        outline the sprite shows. */
    ghost predicate Valid()
      reads this, sprite
    {
      Tables() == StandardTables() && MouthShown(State())
    }

    /** `init(position)`: builds both tables, places the sprite, shows the open Right
        mouth and calls `updateDirection`, which does nothing because no change is
        pending. `lastChange` starts at the time `now` given here. */
    constructor (position: Point, now: real)
      ensures Valid() && fresh(sprite)
      ensures State() == Initial(now)
      ensures sprite.x == position.x && sprite.y == position.y
      ensures sprite.width == 2.0 * Radius && sprite.height == 2.0 * Radius
    {
      openDirectionPaths := map[];
      closedDirectionPaths := map[];
      wasClosedPath := false;
      needsToUpdateDirection := false;
      direction := Right;
      lastChange := now;
      sprite := new ShapeNode(Radius);
      new;
      openDirectionPaths := CreatePaths(OpenStart, OpenEnd, openDirectionPaths);
      closedDirectionPaths := CreatePaths(ClosedStart, ClosedEnd, closedDirectionPaths);
      assert openDirectionPaths == PathTable(OpenStart, OpenEnd);
      assert closedDirectionPaths == PathTable(ClosedStart, ClosedEnd);
      sprite.x, sprite.y := position.x, position.y;
      if Right in openDirectionPaths {
        sprite.path := openDirectionPaths[Right];
      }
      UpdateDirection();
    }

    /** `animateChomp`, with the clock reading passed in as `now`. */
    method AnimateChomp(now: real)
      requires Valid()
      modifies this, sprite
      ensures Valid() && Tables() == old(Tables())
      ensures State() == AfterChomp(old(State()), Tables(), now)
      ensures sprite.x == old(sprite.x) && sprite.y == old(sprite.y)
    {
      if needsToUpdateDirection || now - lastChange > ChompInterval {
        ChompKeepsMouth(State(), now);
        var table := if wasClosedPath then openDirectionPaths else closedDirectionPaths;
        if direction in table {
          sprite.path := table[direction];
        }
        wasClosedPath := !wasClosedPath;
        lastChange := now;
      }
    }

    /** `handleSwipe(from:to:)`, given the swipe's angle truncated to whole degrees. */
    method HandleSwipe(from: Point, to: Point, degrees: int)
      requires Valid()
      modifies this
      ensures Valid() && Tables() == old(Tables())
      ensures State() == AfterSwipe(old(State()), from, to, degrees)
    {
      if from == to {
        return;
      }
      var oldDirection := direction;
      direction := Classify(degrees);
      if oldDirection != direction {
        needsToUpdateDirection := true;
      }
    }

    /** `updateDirection`: replaces the sprite's "Move" action when a change is pending. */
    method UpdateDirection()
      requires Valid()
      modifies this, sprite
      ensures Valid() && Tables() == old(Tables())
      ensures State() == AfterUpdateDirection(old(State()))
      ensures sprite.x == old(sprite.x) && sprite.y == old(sprite.y)
    {
      if !needsToUpdateDirection {
        return;
      }
      sprite.move := Some(ActionForDirection(direction));
      needsToUpdateDirection := false;
    }
  }

  /** The scene: the start of the current touch, the actor once the scene is shown,
      the scene's child nodes and its size. */
  class GameScene {
    var touchBeganPoint: Option<Point>
    var swacman: Swacman?
    var children: seq<ShapeNode>
    const width: real
    const height: real

    /** A node is a child at most once, and the actor keeps its own invariant. */
    ghost predicate Valid()
      reads this, swacman, if swacman != null then {swacman.sprite} else {}
    {
      && (forall i, j :: 0 <= i < j < |children| ==> children[i] != children[j])
      && (swacman != null ==> swacman.Valid())
    }

    constructor (width: real, height: real)
      ensures Valid()
      ensures touchBeganPoint == None && swacman == null && children == []
      ensures this.width == width && this.height == height
    {
      touchBeganPoint := None;
      swacman := null;
      children := [];
      this.width, this.height := width, height;
    }

    /** `didMoveToView`: creates the actor at the middle of the scene and adds its sprite. */
    method DidMoveToView(now: real)
      requires Valid()
      modifies this
      ensures Valid()
      ensures swacman != null && fresh(swacman) && fresh(swacman.sprite)
      ensures swacman.State() == Initial(now)
      ensures swacman.sprite.x == width / 2.0 && swacman.sprite.y == height / 2.0
      ensures children == old(children) + [swacman.sprite]
      ensures touchBeganPoint == old(touchBeganPoint)
    {
      var swac := new Swacman(Point(width / 2.0, height / 2.0), now);
      children := children + [swac.sprite];
      swacman := swac;
    }

    /** `touchesBegan`: records where the touch began (None when no touch is reported). */
    method TouchesBegan(location: Option<Point>)
      modifies this`touchBeganPoint
      ensures touchBeganPoint == location
    {
      touchBeganPoint := location;
    }

    /** `touchesEnded`: with a recorded start, an end point and an actor, a swipe that
        moved is handed to the actor and the start is forgotten; a touch that did not
        move is ignored and its start kept. */
    method TouchesEnded(location: Option<Point>, degrees: int)
      requires Valid()
      modifies this`touchBeganPoint, swacman
      ensures Valid()
      ensures var handled := old(touchBeganPoint).Some? && location.Some? && swacman != null;
        && (swacman != null ==>
              swacman.State() == if handled then AfterSwipe(old(swacman.State()), old(touchBeganPoint).value, location.value, degrees)
              else old(swacman.State()))
        && touchBeganPoint ==
              if handled && old(touchBeganPoint).value != location.value then None else old(touchBeganPoint)
    {
      if touchBeganPoint.Some? && location.Some? && swacman != null {
        var touchStartPoint, touchEndPoint, swac := touchBeganPoint.value, location.value, swacman;
        if touchStartPoint == touchEndPoint {
          return;
        }
        swac.HandleSwipe(touchStartPoint, touchEndPoint, degrees);
        touchBeganPoint := None;
      }
    }

    /** `touchesCancelled`: forgets the start of the touch. */
    method TouchesCancelled()
      modifies this`touchBeganPoint
      ensures touchBeganPoint == None
    {
      touchBeganPoint := None;
    }

    /** `update`: with an actor present, wraps every child node from the position it
        had when the frame began, and lets the actor chomp and update its direction
        when its sprite is reached. Without an actor the frame does nothing. */
    method Update(now: real)
      requires Valid()
      modifies children, swacman
      ensures Valid()
      ensures swacman == null ==> forall i :: 0 <= i < |children| ==>
        children[i].x == old(children[i].x) && children[i].y == old(children[i].y)
      ensures swacman != null ==> forall i :: 0 <= i < |children| ==>
        && children[i].x == WrapCoord(old(children[i].x), children[i].width, width)
        && children[i].y == WrapCoord(old(children[i].y), children[i].height, height)
      ensures forall i :: 0 <= i < |children| && (swacman == null || children[i] != swacman.sprite) ==>
        children[i].path == old(children[i].path) && children[i].move == old(children[i].move)
      ensures swacman != null ==>
                swacman.State() == if swacman.sprite in children
                                   then AfterTick(old(swacman.State()), StandardTables(), now)
                                   else old(swacman.State())
      ensures swacman != null && swacman.sprite in children ==> !swacman.needsToUpdateDirection
    {
      if swacman == null {
        return;
      }
      var swac := swacman;
      for i := 0 to |children|
        invariant swac.Valid()
        invariant forall j :: 0 <= j < i ==>
          && children[j].x == WrapCoord(old(children[j].x), children[j].width, width)
          && children[j].y == WrapCoord(old(children[j].y), children[j].height, height)
        invariant forall j :: i <= j < |children| ==>
          children[j].x == old(children[j].x) && children[j].y == old(children[j].y)
        invariant forall j :: 0 <= j < |children| && children[j] != swac.sprite ==>
          children[j].path == old(children[j].path) && children[j].move == old(children[j].move)
        invariant swac.State() ==
          if swac.sprite in children[..i] then AfterTick(old(swac.State()), StandardTables(), now)
          else old(swac.State())
      {
        var node := children[i];
        node.WrapInScene(width, height);
        assert children[..i + 1] == children[..i] + [node];
        if node == swac.sprite {
          swac.AnimateChomp(now);
          swac.UpdateDirection();
        }
      }
      assert children[..|children|] == children;
    }
  }
}
