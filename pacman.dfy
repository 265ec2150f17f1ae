/** The game with the actor inlined: the scene itself owns the paths, the controller
    fields and the sprite, and its frame loop chomps and updates the direction once
    for every child node. */
module PacmanGame {
  import opened Shapes
  import opened Control
  import opened Wrap
  import opened Nodes

  class GameScene {
    var openDirectionPaths: map<Direction, Outline>
    var closedDirectionPaths: map<Direction, Outline>
    var wasClosedPath: bool
    var needsToUpdateDirection: bool
    var direction: Direction
    var lastChange: real
    var touchBeganPoint: Option<Point>
    const pacmanSprite: ShapeNode
    var children: seq<ShapeNode>
    const width: real
    const height: real

    /** The controller fields, with `node` as the node whose outline is the one shown
        and the sprite's running movement. */
    ghost function ActorOn(node: ShapeNode): Actor
      reads this, node, pacmanSprite
    {
      Actor(direction, needsToUpdateDirection, wasClosedPath, lastChange, node.path, pacmanSprite.move)
    }

    /** The actor as a value, as its own sprite shows it. */
    ghost function State(): Actor
      reads this, pacmanSprite
    {
      ActorOn(pacmanSprite)
    }

    ghost function Tables(): PathTables
      reads this
    {
      PathTables(openDirectionPaths, closedDirectionPaths)
    }

    /** A node is a child at most once. */
    ghost predicate Valid()
      reads this
    {
      forall i, j :: 0 <= i < j < |children| ==> children[i] != children[j]
    }

    /** The scene before it is shown: the lazily initialised fields at their first
        values (`lastChange` at the time `now` given here), empty tables, no children,
        and a plain disc of radius 15 as the sprite. */
    constructor (width: real, height: real, now: real)
      ensures Valid() && fresh(pacmanSprite)
      ensures State() == Actor(Right, false, false, now, Circle(Radius), None)
      ensures Tables() == PathTables(map[], map[])
      ensures touchBeganPoint == None && children == []
      ensures this.width == width && this.height == height
      ensures pacmanSprite.width == 2.0 * Radius && pacmanSprite.height == 2.0 * Radius
    {
      openDirectionPaths := map[];
      closedDirectionPaths := map[];
      wasClosedPath := false;
      needsToUpdateDirection := false;
      direction := Right;
      lastChange := now;
      touchBeganPoint := None;
      pacmanSprite := new ShapeNode(Radius);
      children := [];
      this.width, this.height := width, height;
    }

    /** `didMoveToView`: fills both tables, puts the sprite in the middle showing the
        open Right mouth, adds it as a child (which the scene graph allows only for a
        node that is not a child yet) and calls `updateDirection`. */
    method DidMoveToView()
      requires Valid() && pacmanSprite !in children
      modifies this`openDirectionPaths, this`closedDirectionPaths, this`children, this`needsToUpdateDirection,
        pacmanSprite`x, pacmanSprite`y, pacmanSprite`path, pacmanSprite`move
      ensures Valid()
      ensures Tables() == PathTables(old(openDirectionPaths) + PathTable(OpenStart, OpenEnd),
                                     old(closedDirectionPaths) + PathTable(ClosedStart, ClosedEnd))
      ensures pacmanSprite.x == width / 2.0 && pacmanSprite.y == height / 2.0
      ensures children == old(children) + [pacmanSprite]
      ensures State() == AfterUpdateDirection(old(State()).(shown := Seed(OpenStart, OpenEnd)))
    {
      openDirectionPaths := CreatePaths(OpenStart, OpenEnd, openDirectionPaths);
      closedDirectionPaths := CreatePaths(ClosedStart, ClosedEnd, closedDirectionPaths);
      assert Right in PathTable(OpenStart, OpenEnd);
      assert openDirectionPaths[Right] == Seed(OpenStart, OpenEnd);
      pacmanSprite.x, pacmanSprite.y := width / 2.0, height / 2.0;
      if Right in openDirectionPaths {
        pacmanSprite.path := openDirectionPaths[Right];
      }
      children := children + [pacmanSprite];
      ghost var shown := State();
      assert shown == old(State()).(shown := Seed(OpenStart, OpenEnd));
      UpdateDirection();
    }

    /** `touchesBegan`: records where the touch began (None when no touch is reported). */
    method TouchesBegan(location: Option<Point>)
      modifies this`touchBeganPoint
      ensures touchBeganPoint == location
    {
      touchBeganPoint := location;
    }

    /** `touchesEnded`: with a recorded start and an end point, a swipe that moved
        turns the actor to the swipe's class and raises the flag if the heading
        changed. The recorded start is never cleared here. */
    method TouchesEnded(location: Option<Point>, degrees: int)
      modifies this`direction, this`needsToUpdateDirection
      ensures State() ==
                if old(touchBeganPoint).Some? && location.Some?
                then AfterSwipe(old(State()), old(touchBeganPoint).value, location.value, degrees)
                else old(State())
      ensures touchBeganPoint == old(touchBeganPoint)
    {
      if touchBeganPoint.Some? && location.Some? {
        var touchStartPoint, touchEndPoint := touchBeganPoint.value, location.value;
        if touchStartPoint == touchEndPoint {
          return;
        }
        var oldDirection := direction;
        direction := Classify(degrees);
        if oldDirection != direction {
          needsToUpdateDirection := true;
        }
      }
    }

    /** `touchesCancelled`: forgets the start of the touch. */
    method TouchesCancelled()
      modifies this`touchBeganPoint
      ensures touchBeganPoint == None
    {
      touchBeganPoint := None;
    }

    /** `update`: for each child node in turn, wraps it from the position it had when
        the frame began, runs the chomp on that node's outline and then
        `updateDirection`. The first node's chomp leaves the flag clear and the time
        stamp at `now`, so only the first child can have its outline changed. */
    method Update(now: real)
      requires Valid()
      modifies this`wasClosedPath, this`lastChange, this`needsToUpdateDirection, children, pacmanSprite
      ensures Valid() && Tables() == old(Tables())
      ensures children == old(children) && touchBeganPoint == old(touchBeganPoint)
      ensures forall i :: 0 <= i < |children| ==>
        && children[i].x == WrapCoord(old(children[i].x), children[i].width, width)
        && children[i].y == WrapCoord(old(children[i].y), children[i].height, height)
      ensures |children| == 0 ==> State() == old(State())
      ensures |children| > 0 ==> ActorOn(children[0]) == AfterTick(old(ActorOn(children[0])), Tables(), now)
      ensures |children| > 0 ==> !needsToUpdateDirection
      ensures forall i :: 1 <= i < |children| ==> children[i].path == old(children[i].path)
      ensures forall i :: 0 <= i < |children| && children[i] != pacmanSprite ==>
        children[i].move == old(children[i].move)
      ensures pacmanSprite !in children ==>
        pacmanSprite.x == old(pacmanSprite.x) && pacmanSprite.y == old(pacmanSprite.y)
      ensures pacmanSprite.path == old(pacmanSprite.path) || (|children| > 0 && children[0] == pacmanSprite)
    {
      for i := 0 to |children|
        invariant forall j :: 0 <= j < i ==>
          && children[j].x == WrapCoord(old(children[j].x), children[j].width, width)
          && children[j].y == WrapCoord(old(children[j].y), children[j].height, height)
        invariant forall j :: i <= j < |children| ==>
          children[j].x == old(children[j].x) && children[j].y == old(children[j].y)
        invariant i == 0 ==> State() == old(State())
        invariant i > 0 ==> ActorOn(children[0]) == AfterTick(old(ActorOn(children[0])), Tables(), now)
        invariant forall j :: 0 <= j < |children| && (i == 0 || j > 0) ==> children[j].path == old(children[j].path)
        invariant forall j :: 0 <= j < |children| && children[j] != pacmanSprite ==>
          children[j].move == old(children[j].move)
        invariant pacmanSprite !in children ==>
          pacmanSprite.x == old(pacmanSprite.x) && pacmanSprite.y == old(pacmanSprite.y)
        invariant pacmanSprite.path == old(pacmanSprite.path) || (i > 0 && children[0] == pacmanSprite)
      {
        var node := children[i];
        if i > 0 {
          TickSettles(old(ActorOn(children[0])), Tables(), now);
        }
        UpdateNode(node, now);
      }
    }

    /** One pass of `update`'s loop: wrap `node`, chomp on its outline, then
        `updateDirection`. */
    method UpdateNode(node: ShapeNode, now: real)
      modifies node`x, node`y, node`path, this`wasClosedPath, this`lastChange, this`needsToUpdateDirection,
        pacmanSprite`move
      ensures node.x == WrapCoord(old(node.x), node.width, width)
      ensures node.y == WrapCoord(old(node.y), node.height, height)
      ensures ActorOn(node) == AfterTick(old(ActorOn(node)), Tables(), now)
    {
      node.WrapInScene(width, height);
      AnimateChomp(node, now);
      UpdateDirection();
    }

    /** The chomp inlined in `update`'s loop, applied to the outline of `node`, with
        the clock reading passed in as `now`. */
    method AnimateChomp(node: ShapeNode, now: real)
      modifies this`wasClosedPath, this`lastChange, node`path
      ensures ActorOn(node) == AfterChomp(old(ActorOn(node)), Tables(), now)
    {
      if needsToUpdateDirection || now - lastChange > ChompInterval {
        var table := if wasClosedPath then openDirectionPaths else closedDirectionPaths;
        if direction in table {
          node.path := table[direction];
        }
        wasClosedPath := !wasClosedPath;
        lastChange := now;
      }
    }

    /** `updateDirection`: replaces the sprite's "Move" action when a change is pending. */
    method UpdateDirection()
      modifies this`needsToUpdateDirection, pacmanSprite`move
      ensures State() == AfterUpdateDirection(old(State()))
      ensures !needsToUpdateDirection
      ensures pacmanSprite.move == if old(needsToUpdateDirection) then Some(ActionForDirection(direction)) else old(pacmanSprite.move)
    {
      if !needsToUpdateDirection {
        return;
      }
      pacmanSprite.move := Some(ActionForDirection(direction));
      needsToUpdateDirection := false;
    }
  }
}
