/** Spawning the stack of folders in the holder: `numFolders` clones of the
    template, each added to the scene and recorded as an idle folder. */
module FolderSpawner {
  import opened SceneGraph

  const StartX: real := -2.25
  const StartY: real := 4.7
  const StartZ: real := -2.1
  const SpacingX: real := 0.0
  const SpacingY: real := 0.0
  const RotationX: real := Pi / 2.0
  const RotationY: real := 0.0
  const RotationZ: real := 0.0
  const BaseFolderCount: int := 5
  const BaseSpacingZ: real := 0.03
  /** Depth the stack spans: the gap of the five-folder base layout times its four gaps. */
  const HolderDepthSpan: real := BaseSpacingZ * (if BaseFolderCount - 1 > 1 then BaseFolderCount - 1 else 1) as real

  /** The root of the scene graph; only its list of children is modelled. */
  class Scene {
    var children: seq<Mesh>

    constructor ()
      ensures children == []
    {
      children := [];
    }

    /** `scene.add(object)`. */
    method Add(m: Mesh)
      modifies this
      ensures children == old(children) + [m]
    {
      children := children + [m];
    }
  }

  /** Depth gap between neighbouring folders in the holder. */
  function SpacingZ(numFolders: int): (s: real)
    ensures numFolders > 1 ==> s > 0.0 && s * (numFolders - 1) as real == 0.12
    ensures numFolders <= 1 ==> s == 0.0
  {
    if numFolders > 1 then HolderDepthSpan / (numFolders - 1) as real else 0.0
  }

  /** Where clone `i` of `numFolders` starts. */
  function StartPosition(i: int, numFolders: int): Vec3 {
    Vec3(StartX + i as real * SpacingX, StartY + i as real * SpacingY, StartZ + i as real * SpacingZ(numFolders))
  }

  /** Every clone starts standing upright. */
  function StartRotation(): Vec3 {
    Vec3(RotationX, RotationY, RotationZ)
  }

  /** X and Y spacings are zero, so every clone shares X and Y. */
  lemma StartsAboveSamePoint(i: int, numFolders: int)
    ensures StartPosition(i, numFolders).x == -2.25
    ensures StartPosition(i, numFolders).y == 4.7
  {
  }

  /** The stack spans a fixed 0.12 in depth whatever the count: first clone at
      -2.1, last at -1.98. */
  lemma StackDepthIsFixed(numFolders: int)
    requires numFolders > 1
    ensures StartPosition(0, numFolders).z == -2.1
    ensures StartPosition(numFolders - 1, numFolders).z == -1.98
  {
  }

  /** Clone depth increases strictly with the clone index. */
  lemma StartZStrictlyIncreasing(i: int, j: int, numFolders: int)
    requires numFolders > 1 && i < j
    ensures StartPosition(i, numFolders).z < StartPosition(j, numFolders).z
  {
    var s := SpacingZ(numFolders);
    assert (j - i) as real * s > 0.0;
    assert j as real * s - i as real * s == (j - i) as real * s;
  }

  /** Within the stack, clone `i` sits at -2.1 + i * 0.12 / (n - 1), inside [-2.1, -1.98]. */
  lemma StartZWithinStack(i: int, numFolders: int)
    requires numFolders > 1 && 0 <= i < numFolders
    ensures StartPosition(i, numFolders).z == -2.1 + i as real * 0.12 / (numFolders - 1) as real
    ensures -2.1 <= StartPosition(i, numFolders).z <= -1.98
  {
    var s := SpacingZ(numFolders);
    assert i as real * s <= (numFolders - 1) as real * s by {
      assert ((numFolders - 1) - i) as real * s >= 0.0;
    }
  }

  /** A single folder gets no depth gap and sits at -2.1. */
  lemma SingleFolderAtStackFront()
    ensures SpacingZ(1) == 0.0
    ensures StartPosition(0, 1) == Vec3(-2.25, 4.7, -2.1)
  {
  }

  /** The meshes of a folder list, in list order. */
  function Meshes(folders: seq<FolderData>): (ms: seq<Mesh>)
    ensures |ms| == |folders|
    ensures forall i :: 0 <= i < |folders| ==> ms[i] == folders[i].mesh
  {
    seq(|folders|, i requires 0 <= i < |folders| => folders[i].mesh)
  }

  /** createFolderClones: without a holder nothing happens and the list is empty;
      otherwise `numFolders` clones (none if it is not positive) are placed in
      the holder stack, added to the scene in index order and returned as idle
      records with `index == i`. The holder's own position plays no part. */
  method CreateFolderClones(template: Mesh, holder: Option<Node>, scene: Scene, numFolders: int)
    returns (folders: seq<FolderData>)
    modifies scene
    ensures holder.None? ==> folders == [] && scene.children == old(scene.children)
    ensures holder.Some? ==> |folders| == (if numFolders > 0 then numFolders else 0)
    ensures forall i :: 0 <= i < |folders| ==>
      && fresh(folders[i]) && fresh(folders[i].mesh)
      && folders[i].index == i && !folders[i].isAnimating
      && folders[i].mesh.position == StartPosition(i, numFolders)
      && folders[i].mesh.rotation == StartRotation()
    ensures forall i, j :: 0 <= i < j < |folders| ==> folders[i].mesh != folders[j].mesh
    ensures scene.children == old(scene.children) + Meshes(folders)
  {
    if holder.None? {
      return [];
    }
    var spacingZ := if numFolders > 1 then HolderDepthSpan / (numFolders - 1) as real else 0.0;
    folders := [];
    var i := 0;
    while i < numFolders
      invariant numFolders > 0 ==> 0 <= i <= numFolders
      invariant numFolders <= 0 ==> i == 0
      invariant |folders| == i
      invariant forall k :: 0 <= k < i ==>
        && fresh(folders[k]) && fresh(folders[k].mesh)
        && folders[k].index == k && !folders[k].isAnimating
        && folders[k].mesh.position == StartPosition(k, numFolders)
        && folders[k].mesh.rotation == StartRotation()
      invariant forall k, j :: 0 <= k < j < i ==> folders[k].mesh != folders[j].mesh
      invariant scene.children == old(scene.children) + Meshes(folders)
    {
      var clone := template.Clone();
      clone.position := Vec3(StartX + i as real * SpacingX, StartY + i as real * SpacingY, StartZ + i as real * spacingZ);
      clone.rotation := Vec3(RotationX, RotationY, RotationZ);
      scene.Add(clone);
      var record := new FolderData(clone, i);
      folders := folders + [record];
      i := i + 1;
    }
  }
}
