# Pac-Man actor control logic, modelled in Dafny

The game shows a Pac-Man sprite that chomps (alternates an open and a closed mouth
outline) and moves in one of four directions. Swipes change the direction. Every
frame, each node that has gone fully off-screen is moved to the other side. The
repository holds this logic twice:

- `Swacman/GameScene.swift` wraps the actor in a `Swacman` class that the scene drives.
- `Pacman/GameScene.swift` inlines the same logic in the scene.

This project models both files. The logic they share is written once, as values:

- `Shapes` holds the four directions and the outlines. A path is a wedge of radius 15
  (an arc from a start angle to an end angle, closed back to its centre) plus a count
  of quarter-turns. It also holds the two per-direction path tables and `CreatePaths`,
  which fills a table in a loop as `createPaths` does.
- `Control` holds the swipe classifier, the movement chosen for a direction, and the
  actor's state machine: `AfterSwipe`, `AfterChomp`, `AfterUpdateDirection` and
  `AfterTick`. It proves the invariants these keep over any sequence of swipes and frames.
- `Wrap` holds the per-axis screen wrap.
- `Nodes` holds `ShapeNode`, a scene-graph shape node. It keeps a position, a frame
  size, the outline it draws and the movement running on it.
- `SwacmanGame` and `PacmanGame` model the two files as classes. Their methods change
  fields in place and are proved against the functions in `Control`.

What the code does, as proved here:

- A swipe's angle, truncated to whole degrees, is classified first-match:
  - [-135, -45] is Right;
  - (-45, 45] is Down;
  - (45, 135] is Left;
  - anything else is Up.
- `needsToUpdateDirection` is raised exactly when a swipe changes the direction. A swipe
  never clears it.
- The chomp fires when the flag is raised or when more than 0.25 s (strictly) has passed
  since the last toggle. When the mouth was closed it shows the open outline for the
  current direction, and otherwise the closed one.
- `updateDirection` clears the flag and starts a step of 25 points per 0.1 s along the
  direction. With the flag clear it does nothing.
- Set-up calls `updateDirection` while the flag is clear. So the sprite does not move
  until a swipe first turns it away from Right (`StandsStillUntilTurned`).
- In the inlined scene, the chomp and the direction update run once for every child
  node. With one clock reading per frame (see Left out), the first node leaves the flag
  clear and the chomp not due at that instant, so only the first child's outline can
  change in a frame (`TickSettles`).

The current time is a parameter (`now`, in seconds). The swipe angle is a parameter too:
`degrees` is `Int(atan2(start.x - end.x, start.y - end.y))` in degrees. `AxisAngle` gives
its exact value for swipes along an axis.

Four consequences of the code are worth stating plainly:

- The switch's closed ranges overlap at their ends and are matched in order. So -45 is
  Right, 45 is Down and 135 is Left.
- The wrap tests are strict (`p.x - w > W`), so a node at exactly `W + w` stays.
- The wrap treats the two edges differently and both axes the same way. Past the far
  edge the node goes to `-w`, and past the near edge to `W + w/2`.
- Set-up shows the open Right outline with `wasClosedPath` false. So the first frame
  after an upward swipe shows the closed Up outline (`SwipeUpScenario`).

## Model

| member | source | states |
|---|---|---|
| Shapes.QuarterTurns | Swacman/GameScene.swift:32-36 | each direction is reached by its own count of quarter-turns from Right, and `HeadingOf` gives the direction back |
| Shapes.NextTurn | Swacman/GameScene.swift:33-35 | the next direction in the order Right, Up, Left, Down is one more quarter-turn round, modulo a full turn |
| Shapes.Rotated | Pacman/Extensions.swift:21-30 | turning a path by 90 degrees makes a wedge face the next direction and keeps its radius and arc; a circle is unchanged |
| Shapes.RotatedByTurns | Pacman/Extensions.swift:21-30 | n successive quarter-turns add n to a wedge's turn count, modulo 4 |
| Shapes.FullTurnIsIdentity | Pacman/Extensions.swift:21-30 | four quarter-turns give back the original path |
| Shapes.PathTableShape | Swacman/GameScene.swift:28-39 | each table has exactly the four directions as keys; Right holds the seed, and Up, Left and Down hold it turned 1, 2 and 3 times; every entry faces its own direction; turning one entry gives the next direction's entry |
| Shapes.CreatePaths | Pacman/GameScene.swift:30-41 | filling the dictionary in place (seed under Right, then one more quarter-turn for each of Up, Left, Down) leaves exactly the old entries overwritten by the full table |
| Control.Classify | Swacman/GameScene.swift:67-72 | the first-match switch over closed ranges is total: [-135,-45] is Right, (-45,45] is Down, (45,135] is Left, and anything below -135 or above 135 is Up (both directions of each) |
| Control.AxisAngle | Swacman/GameScene.swift:64-67 | a swipe gets an exact angle exactly when it moves along one axis; the truncated angle is 0 when the finger moved down, 180 up, 90 left and -90 right; any other swipe gives None |
| Control.ActionForDirection | Swacman/GameScene.swift:83-95 | the movement lasts 0.1 s and has length 25 along one axis only; it moves up exactly for Up, down for Down, right for Right and left for Left |
| Control.AxisSwipeFollowsFinger | Swacman/GameScene.swift:64-72 | a swipe along an axis turns the actor the way the finger moved, and the movement it then gets goes that way too |
| Control.AfterSwipe | Swacman/GameScene.swift:60-76 | a swipe with equal start and end changes nothing; otherwise the direction becomes the swipe's class; the flag is raised exactly when the direction changed and is never cleared; no other field changes |
| Control.AfterChomp | Swacman/GameScene.swift:50-58 | when neither the flag is raised nor more than 0.25 s has passed, nothing changes; otherwise the mouth flag flips, the time stamp becomes now, and with the standard tables the open outline is shown if the mouth was closed and the closed one otherwise, turned to the current direction |
| Control.AfterUpdateDirection | Swacman/GameScene.swift:78-99 | the flag is always clear afterwards; with the flag clear nothing changes; otherwise the movement becomes the one for the direction and nothing else changes |
| Control.AfterTick | Swacman/GameScene.swift:146-149 | one frame is the chomp followed by the direction update: the flag ends clear and the heading is kept; the mouth flips and the time stamp becomes now exactly when the chomp was due, and the outline is kept otherwise; the movement becomes the heading's one exactly when a change was pending |
| Control.TickSettles | Pacman/GameScene.swift:100-107 | after one frame the flag is clear and the chomp is not due, so a second chomp and direction update at the same instant change nothing |
| Control.ChompKeepsMouth | Swacman/GameScene.swift:52-55 | with the standard tables, the chomp keeps `wasClosedPath` true exactly when a closed-mouth outline is shown |
| Control.StepKeepsInvariants | Swacman/GameScene.swift:50-99 | one swipe or frame keeps the mouth invariant, and keeps the rule that with no change pending the sprite faces its direction and moves along it (or has not moved yet and faces Right) |
| Control.RunKeepsInvariants | Swacman/GameScene.swift:50-99 | any sequence of swipes and frames keeps both invariants |
| Control.InitialIsSettled | Swacman/GameScene.swift:43-47 | the set-up state (open Right outline, mouth flag clear, no movement) satisfies both invariants |
| Control.StandsStillUntilTurned | Swacman/GameScene.swift:43-48 | starting facing Right with no movement and no change pending, the sprite stays without movement and facing Right while no swipe classifies to another direction |
| Control.TurnTakesEffectNextFrame | Swacman/GameScene.swift:146-149 | the first frame after a swipe that changes the direction toggles the mouth at once, whatever the time, shows the new direction, starts its movement and clears the flag |
| Control.ChompCadence | Swacman/GameScene.swift:51 | with no change pending, a frame toggles the mouth exactly when more than 0.25 s has passed since the last toggle, and otherwise changes nothing |
| Control.SwipeUpScenario | Swacman/GameScene.swift:60-98 | from set-up, a straight upward swipe and one frame give direction Up, a movement of (0, 25) per 0.1 s and the closed Up outline |
| Wrap.WrapCoord | Swacman/GameScene.swift:132-145 | a coordinate in [-w, W+w], ends included, is unchanged; one below -w becomes W + w/2; one with p - w > W (and not below -w) becomes -w |
| Wrap.WrapLandsInBand | Swacman/GameScene.swift:134-145 | with non-negative sizes, a wrapped coordinate lies in the band the wrap leaves alone, so wrapping twice is wrapping once |
| Nodes.ShapeNode.constructor | Swacman/GameScene.swift:25 | a new circle node sits at the origin, draws the circle, has no movement, and its frame is the circle's diameter |
| Nodes.ShapeNode.WrapInScene | Pacman/GameScene.swift:85-99 | both axes are wrapped from the position read before either changes |
| SwacmanGame.Swacman.constructor | Swacman/GameScene.swift:26-48 | builds both standard tables, places the sprite, shows the open Right outline, and leaves the actor in the set-up state with no movement |
| SwacmanGame.Swacman.AnimateChomp | Swacman/GameScene.swift:50-58 | the actor's new state is the chomp of its old state; the tables, the sprite's position and the mouth invariant are kept |
| SwacmanGame.Swacman.HandleSwipe | Swacman/GameScene.swift:60-76 | the actor's new state is the swipe applied to its old state |
| SwacmanGame.Swacman.UpdateDirection | Swacman/GameScene.swift:78-99 | the actor's new state is the direction update of its old state |
| SwacmanGame.GameScene.constructor | Swacman/GameScene.swift:102-103 | a new scene has no touch start, no actor and no children |
| SwacmanGame.GameScene.DidMoveToView | Swacman/GameScene.swift:105-109 | creates a fresh actor in the set-up state at the middle of the scene and appends its sprite to the children |
| SwacmanGame.GameScene.TouchesBegan | Swacman/GameScene.swift:111-113 | the touch start becomes the reported location, or none |
| SwacmanGame.GameScene.TouchesEnded | Swacman/GameScene.swift:115-123 | with a start, an end and an actor, the swipe is applied to the actor, and the start is cleared unless start and end are equal; otherwise nothing changes |
| SwacmanGame.GameScene.TouchesCancelled | Swacman/GameScene.swift:125-127 | the touch start is cleared |
| SwacmanGame.GameScene.Update | Swacman/GameScene.swift:129-152 | without an actor nothing changes; otherwise every child is wrapped from its pre-frame position, the actor advances by one frame when its sprite is a child (leaving the flag clear), and no other node's outline or movement changes |
| PacmanGame.GameScene.constructor | Pacman/GameScene.swift:18-26 | before it is shown, the scene faces Right with both flags clear, empty tables, no touch start, no children and a plain circle sprite |
| PacmanGame.GameScene.DidMoveToView | Pacman/GameScene.swift:28-51 | both tables gain the full standard table, the sprite moves to the middle showing the open Right outline and is appended to the children, then the direction update runs |
| PacmanGame.GameScene.TouchesBegan | Pacman/GameScene.swift:53-55 | the touch start becomes the reported location, or none |
| PacmanGame.GameScene.TouchesEnded | Pacman/GameScene.swift:57-76 | with no start or no end nothing changes; otherwise the swipe is applied (so equal points change nothing); the touch start is never cleared here |
| PacmanGame.GameScene.TouchesCancelled | Pacman/GameScene.swift:78-80 | the touch start is cleared |
| PacmanGame.GameScene.Update | Pacman/GameScene.swift:82-110 | every child is wrapped from its pre-frame position; with no children the actor is unchanged; otherwise the actor, seen through the first child's outline, advances by exactly one frame, the flag ends clear, and no later child's outline changes |
| PacmanGame.GameScene.UpdateNode | Pacman/GameScene.swift:84-107 | one pass of the loop wraps the node and advances the actor, seen through that node's outline, by one frame |
| PacmanGame.GameScene.AnimateChomp | Pacman/GameScene.swift:100-106 | the inlined chomp applied to the node's outline is the chomp of the actor seen through that node |
| PacmanGame.GameScene.UpdateDirection | Pacman/GameScene.swift:122-143 | the actor's new state is the direction update of its old state; the flag ends clear and the sprite's movement is replaced only when a change was pending |

## Left out

- The swipe angle (`atan2` and `toDegrees`, Pacman/Extensions.swift:11-18) is floating-point trigonometry. The truncated angle is a parameter. `AxisAngle` gives its exact value only for swipes along an axis.
- Rotation (`pathByRotating`, Pacman/Extensions.swift:21-30) is an affine transform about the bounding-box centre. It is modelled as a quarter-turn count, so neither the small shift of the wedge's centre nor floating-point rounding is captured.
- Drawing is not modelled: fill and stroke colours, line width, and the bezier geometry itself.
- A node's frame size is a constant (the circle's diameter). In the scene graph it depends on the current path and stroke.
- The running `SKAction` is not modelled. Only the chosen movement is stored, so how far the sprite travels between frames is not modelled.
- Clock reads (`NSDate().timeIntervalSince1970`) become one `now` per frame. The source reads the clock again when it stores `lastChange`, and once per node in the inlined scene.
- `lastChange` is initialised lazily in the source. It is set at construction to the `now` given there. In the source, the first chomp test reads the clock and only then initialises `lastChange` from a later reading, so the difference is at most zero: the first frame's chomp fires only when a change is pending. The model instead fires on the first frame whenever more than 0.25 s has passed since construction.
- `positionOfTouch` returns the first touch of an unordered set. The touch location is a parameter, with `None` for an empty set.
- The cast `self.children as? [SKShapeNode]` is not modelled, because children are shape nodes here. A scene with some other kind of child would skip the whole frame.
- PacmanGame.GameScene.DidMoveToView: requires that the sprite is not yet a child. The source adds the sprite unconditionally, and the scene graph raises an exception when a node that already has a parent is added again, for example on a second `didMoveToView` when the scene is presented again. That trap is not modelled.
- When the host calls `didMoveToView` is not modelled; it is a method that the caller invokes. The scene's frame is taken to start at the origin, so its middle is (width/2, height/2).
- `Int(degrees)` would trap on a non-finite angle. That cannot happen for the finite points a touch reports, so it is not modelled.
