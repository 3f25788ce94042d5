/** Values and objects shared by the folder modules: vectors, transforms,
    scene-graph nodes as seen by a hit test, meshes whose transform is
    updated in place, and the per-folder bookkeeping record. */
module SceneGraph {

  datatype Option<+T> = None | Some(value: T)

  /** Math.PI as JavaScript prints it (16 significant digits). */
  const Pi: real := 3.141592653589793

  /** One result of Math.random(): a number in [0, 1). */
  type Draw = r: real | 0.0 <= r < 1.0

  datatype Vec3 = Vec3(x: real, y: real, z: real)

  /** A position together with an Euler rotation (radians). */
  datatype Transform = Transform(position: Vec3, rotation: Vec3)

  /** A scene-graph node as the click handler sees it: its identity, its
      name, and the `userData.type` tag if it has one. */
  datatype Node = Node(id: int, name: string, userType: Option<string>)

  /** A three.js object with a position and a rotation that are set in place. */
  class Mesh {
    var position: Vec3
    var rotation: Vec3

    constructor (position: Vec3, rotation: Vec3)
      ensures this.position == position && this.rotation == rotation
    {
      this.position := position;
      this.rotation := rotation;
    }

    function CurrentTransform(): (t: Transform)
      reads this
      ensures t.position == position && t.rotation == rotation
    {
      Transform(position, rotation)
    }

    /** `object.clone()`: a new object with the same transform. */
    method Clone() returns (c: Mesh)
      ensures fresh(c)
      ensures c.position == position && c.rotation == rotation
    {
      c := new Mesh(position, rotation);
    }
  }

  /** The record `{ mesh, isAnimating, index }` kept for every spawned folder. */
  class FolderData {
    const mesh: Mesh
    const index: int
    var isAnimating: bool

    constructor (mesh: Mesh, index: int)
      ensures this.mesh == mesh && this.index == index && !isAnimating
    {
      this.mesh := mesh;
      this.index := index;
      isAnimating := false;
    }
  }

  /** The `isAnimating` flags of a folder list, in list order. */
  function Flags(folders: seq<FolderData>): (busy: seq<bool>)
    reads set f | f in folders
    ensures |busy| == |folders|
    ensures forall i :: 0 <= i < |folders| ==> busy[i] == folders[i].isAnimating
  {
    seq(|folders|, i reads set f | f in folders requires 0 <= i < |folders| => folders[i].isAnimating)
  }
}
