/** The part of a scene-graph shape node that the game reads and writes. */
module Nodes {
  import opened Shapes
  import opened Control
  import opened Wrap

  /** A shape node: its position, the size of its frame, the outline it draws and
      the movement running on it under the key "Move". */
  class ShapeNode {
    var x: real
    var y: real
    const width: real
    const height: real
    var path: Outline
    var move: Option<Move>

    /** `SKShapeNode(circleOfRadius:)`: a disc at the origin with nothing running. */
    constructor (radius: real)
      ensures x == 0.0 && y == 0.0
      ensures width == 2.0 * radius && height == 2.0 * radius
      ensures path == Circle(radius) && move == None
    {
      x, y := 0.0, 0.0;
      width, height := 2.0 * radius, 2.0 * radius;
      path := Circle(radius);
      move := None;
    }

    /** The body of a scene's wrap loop for this node: both axes are tested against
        the position read before either is changed. */
    method WrapInScene(sceneWidth: real, sceneHeight: real)
      modifies this`x, this`y
      ensures x == WrapCoord(old(x), width, sceneWidth)
      ensures y == WrapCoord(old(y), height, sceneHeight)
    {
      var px, py := x, y;
      if px - width > sceneWidth {
        x := -width;
      }
      if py - height > sceneHeight {
        y := -height;
      }
      if px < -width {
        x := sceneWidth + width / 2.0;
      }
      if py < -height {
        y := sceneHeight + height / 2.0;
      }
    }
  }
}
