/**
  The part of the SceneView scene graph the app builds: anchor nodes holding a
  sphere, and plane overlay nodes whose transform is rewritten every frame.
 */
module SceneGraph {
  import opened ArCore

  /** A position or scale vector (SceneView's Float3). */
  datatype Float3 = Float3(x: real, y: real, z: real)

  /**
    An angle, kept as the unevaluated trigonometric term that produces it:
    `Atan2(y, x)` stands for atan2(y, x), `Asin(sine)` for asin(sine).
   */
  datatype Angle = Atan2(y: real, x: real) | Asin(sine: real)

  /** An Euler rotation (roll about x, pitch about y, yaw about z). */
  datatype Rotation = Rotation(roll: Angle, pitch: Angle, yaw: Angle)

  /** The transform a node carries. */
  datatype Transform = Transform(position: Float3, rotation: Rotation, scale: Float3)

  /** The default radius of the marker sphere. */
  const SphereRadius: real := 0.15

  /** A plane overlay node; its transform is assigned in place. */
  class PlaneNode {
    var position: Float3
    var rotation: Rotation
    var scale: Float3

    /** The node built with the given transform. */
    constructor (position: Float3, rotation: Rotation, scale: Float3)
      ensures this.position == position && this.rotation == rotation && this.scale == scale
    {
      this.position := position;
      this.rotation := rotation;
      this.scale := scale;
    }

    function State(): Transform
      reads this
    {
      Transform(position, rotation, scale)
    }
  }

  /**
    A child of the scene. Anchor nodes and spheres are never changed after they
    are built, so they are values; an overlay refers to its (mutable) node.
   */
  datatype Node =
    | AnchorNode(anchor: Anchor, children: seq<Node>)
    | SphereNode(radius: real)
    | Overlay(planeNode: PlaneNode)

  /** The AR scene view; only its list of top-level children is modelled. */
  class SceneView {
    var children: seq<Node>

    constructor ()
      ensures children == []
    {
      children := [];
    }

    method AddChildNode(node: Node)
      modifies this
      ensures children == old(children) + [node]
    {
      children := children + [node];
    }
  }
}
