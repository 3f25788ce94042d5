/** The scatter layout that places a folder on the table, and the
    three-step timeline that moves a folder there while its `isAnimating`
    flag is set. */
module FolderAnimations {
  import opened SceneGraph

  // Layout constants of generateScatterTransform.
  const TableCenterX: real := -2.2
  const TableZ: real := -1.5
  const FolderWidth: real := 0.8
  const TableWidth: real := 4.5
  const RandomOffset: real := 0.1
  const FoldersPerRow: int := 6
  const RowLift: real := 0.05
  /** Rotation jitter span around a quarter turn. */
  const RotationJitter: real := 0.3

  // Timeline constants of animateFolderToTable.
  const StaggerStep: real := 0.1
  const LiftHeight: real := 10.0
  const LiftDuration: real := 0.3
  const TeleportY: real := 3.0
  const TeleportZ: real := 5.0
  const SlideDuration: real := 1.0
  /** The table height animateFolderToTable passes to the layout. */
  const TableHeight: real := -0.7

  /** The three random draws generateScatterTransform makes, in call order. */
  datatype ScatterDraws = ScatterDraws(x: Draw, z: Draw, rotationY: Draw)

  // ---------------------------------------------------------------------
  // Scatter layout
  // ---------------------------------------------------------------------

  /** Width the row of folders takes: one folder width each, capped at the table width. */
  function TotalWidth(totalFolders: int): (w: real)
    ensures w <= TableWidth
    ensures w <= FolderWidth * totalFolders as real
    ensures w == TableWidth || w == FolderWidth * totalFolders as real
  {
    var wanted := FolderWidth * totalFolders as real;
    if wanted < TableWidth then wanted else TableWidth
  }

  /** Distance between neighbouring folder centres. */
  function Spacing(totalFolders: int): (s: real)
    ensures totalFolders > 1 ==> s > 0.0 && s * (totalFolders - 1) as real == TotalWidth(totalFolders)
    ensures totalFolders <= 1 ==> s == 0.0
  {
    if totalFolders > 1 then TotalWidth(totalFolders) / (totalFolders - 1) as real else 0.0
  }

  /** Left edge of the row. */
  function StartX(totalFolders: int): real {
    TableCenterX - TotalWidth(totalFolders) / 2.0
  }

  /** Centre of folder `index` before jitter. */
  function BaseX(index: int, totalFolders: int): real {
    StartX(totalFolders) + index as real * Spacing(totalFolders)
  }

  /** Height added for folders beyond the first row of six (only above six folders). */
  function VerticalOffset(index: int, totalFolders: int): real {
    if totalFolders > FoldersPerRow then (index / FoldersPerRow) as real * RowLift else 0.0
  }

  /** The target transform of folder `index` out of `totalFolders` on a table at
      `tableHeight`, given the three random draws. */
  function ScatterTransform(index: int, tableHeight: real, totalFolders: int, d: ScatterDraws): (t: Transform)
    ensures BaseX(index, totalFolders) - 0.05 <= t.position.x < BaseX(index, totalFolders) + 0.05
    ensures TableZ - 0.05 <= t.position.z < TableZ + 0.05
    ensures totalFolders <= 6 ==> t.position.y == tableHeight
    ensures totalFolders > 6 ==> t.position.y == tableHeight + (index as real / 6.0).Floor as real * 0.05
    ensures t.rotation.x == 0.0 && t.rotation.z == 0.0
    ensures Pi / 2.0 - 0.15 <= t.rotation.y < Pi / 2.0 + 0.15
  {
    FloorOfSixth(index);
    var x := BaseX(index, totalFolders) + (d.x - 0.5) * RandomOffset;
    var z := TableZ + (d.z - 0.5) * RandomOffset;
    Transform(
      Vec3(x, tableHeight + VerticalOffset(index, totalFolders), z),
      Vec3(0.0, Pi / 2.0 + (d.rotationY - 0.5) * RotationJitter, 0.0))
  }

  /** Math.floor(index / 6) is the integer quotient by six. */
  lemma FloorOfSixth(index: int)
    ensures (index as real / 6.0).Floor == index / 6
  {
    var q, r := index / 6, index % 6;
    assert index as real / 6.0 == q as real + r as real / 6.0;
  }

  /** Every folder centre of a row lies between the row's two edges, and the
      row is never wider than the table. */
  lemma BaseXWithinRow(index: int, totalFolders: int)
    requires totalFolders >= 1 && 0 <= index < totalFolders
    ensures TotalWidth(totalFolders) <= TableWidth
    ensures TableCenterX - TotalWidth(totalFolders) / 2.0 <= BaseX(index, totalFolders)
    ensures BaseX(index, totalFolders) <= TableCenterX + TotalWidth(totalFolders) / 2.0
  {
    var w, s := TotalWidth(totalFolders), Spacing(totalFolders);
    assert BaseX(index, totalFolders) == TableCenterX - w / 2.0 + index as real * s;
    if totalFolders == 1 {
      assert w == FolderWidth && s == 0.0;
    } else {
      assert 0.0 <= index as real * s <= w by {
        assert ((totalFolders - 1) - index) as real * s >= 0.0;
      }
    }
  }

  /** With two or more folders the centres increase strictly with the index. */
  lemma BaseXStrictlyIncreasing(i: int, j: int, totalFolders: int)
    requires totalFolders >= 2 && i < j
    ensures BaseX(i, totalFolders) < BaseX(j, totalFolders)
  {
    var s := Spacing(totalFolders);
    assert (j - i) as real * s > 0.0;
    assert j as real * s - i as real * s == (j - i) as real * s;
  }

  /** With two or more folders the first sits on the left edge and the last
      on the right edge of the row. */
  lemma BaseXEdges(totalFolders: int)
    requires totalFolders >= 2
    ensures BaseX(0, totalFolders) == TableCenterX - TotalWidth(totalFolders) / 2.0
    ensures BaseX(totalFolders - 1, totalFolders) == TableCenterX + TotalWidth(totalFolders) / 2.0
  {
  }

  /** Five folders: the middle one is centred on the table. */
  lemma MiddleOfFiveIsCentred()
    ensures Spacing(5) == 1.0
    ensures BaseX(2, 5) == -2.2
  {
    assert TotalWidth(5) == 4.0;
  }

  /** A single folder gets no spacing and sits at the left edge, not at the centre. */
  lemma SingleFolderAtLeftEdge(index: int)
    ensures Spacing(1) == 0.0
    ensures BaseX(index, 1) == -2.6
  {
  }

  /** For any valid index the jittered X stays within the table row widened by
      the jitter, whatever the draws are. */
  lemma ScatterXWithinTable(index: int, tableHeight: real, totalFolders: int, d: ScatterDraws)
    requires totalFolders >= 1 && 0 <= index < totalFolders
    ensures var x := ScatterTransform(index, tableHeight, totalFolders, d).position.x;
      TableCenterX - TotalWidth(totalFolders) / 2.0 - 0.05 <= x < TableCenterX + TotalWidth(totalFolders) / 2.0 + 0.05
  {
    BaseXWithinRow(index, totalFolders);
  }

  /** Conversely every X in the jitter window around the centre is produced by some draw. */
  lemma ScatterXCoversJitterWindow(index: int, tableHeight: real, totalFolders: int, x: real)
    requires BaseX(index, totalFolders) - 0.05 <= x < BaseX(index, totalFolders) + 0.05
    ensures exists d: ScatterDraws :: ScatterTransform(index, tableHeight, totalFolders, d).position.x == x
  {
    var r := (x - BaseX(index, totalFolders)) / RandomOffset + 0.5;
    var d := ScatterDraws(r, 0.0, 0.0);
    assert ScatterTransform(index, tableHeight, totalFolders, d).position.x == x;
  }

  // ---------------------------------------------------------------------
  // Timelines
  // ---------------------------------------------------------------------

  /** Which transform property a tween animates. */
  datatype Channel = Position | Rotation

  /** The components a tween sets; absent components are left alone. */
  datatype Patch = Patch(x: Option<real>, y: Option<real>, z: Option<real>)

  /** Where a tween is placed: after everything so far (the default and
      '+=0'), or at the start of the previously added tween ('<'). */
  datatype Anchor = TimelineEnd | PreviousStart

  /** A `timeline.to` (or, with duration 0, a `timeline.set`) call. */
  datatype Tween = Tween(channel: Channel, target: Patch, duration: real, delay: real, anchor: Anchor)

  /** Start times of the tweens and the time at which the timeline completes. */
  datatype Schedule = Schedule(starts: seq<real>, end: real)

  function Max(a: real, b: real): real { if a < b then b else a }

  /** Lays the tweens out on the timeline in the order they were added. */
  function ScheduleOf(tweens: seq<Tween>): (s: Schedule)
    ensures |s.starts| == |tweens|
  {
    if tweens == [] then Schedule([], 0.0)
    else
      var before := ScheduleOf(tweens[..|tweens| - 1]);
      var tw := tweens[|tweens| - 1];
      var base := if tw.anchor == PreviousStart && before.starts != [] then before.starts[|before.starts| - 1] else before.end;
      var start := base + tw.delay;
      Schedule(before.starts + [start], Max(before.end, start + tw.duration))
  }

  function PatchVec(v: Vec3, p: Patch): Vec3 {
    Vec3(
      if p.x.Some? then p.x.value else v.x,
      if p.y.Some? then p.y.value else v.y,
      if p.z.Some? then p.z.value else v.z)
  }

  /** The transform once a tween has reached its end values. */
  function ApplyTween(t: Transform, tw: Tween): Transform {
    match tw.channel
    case Position => t.(position := PatchVec(t.position, tw.target))
    case Rotation => t.(rotation := PatchVec(t.rotation, tw.target))
  }

  /** The transform once every tween has run, in the order they were added. */
  function Play(t: Transform, tweens: seq<Tween>): Transform
    decreases |tweens|
  {
    if tweens == [] then t else Play(ApplyTween(t, tweens[0]), tweens[1..])
  }

  function Full(v: Vec3): Patch { Patch(Some(v.x), Some(v.y), Some(v.z)) }

  /** The timeline animateFolderToTable builds for folder `folderIndex` of
      `totalFolders`: lift, teleport, then slide and rotate together. */
  function FolderTimeline(folderIndex: nat, totalFolders: int, teleport: Draw, d: ScatterDraws): (tl: seq<Tween>)
    ensures |tl| == 4
  {
    var target := ScatterTransform(folderIndex, TableHeight, totalFolders, d);
    [ Tween(Position, Patch(None, Some(LiftHeight), None), LiftDuration, folderIndex as real * StaggerStep, TimelineEnd),
      Tween(Position, Patch(Some(teleport * 4.0 - 2.0), Some(TeleportY), Some(TeleportZ)), 0.0, 0.0, TimelineEnd),
      Tween(Position, Full(target.position), SlideDuration, 0.0, TimelineEnd),
      Tween(Rotation, Full(target.rotation), SlideDuration, 0.0, PreviousStart) ]
  }

  /** The lift starts after the stagger delay; teleport, slide and rotation all
      start when the lift ends; the timeline completes one second later. */
  lemma {:induction false} FolderTimelineSchedule(folderIndex: nat, totalFolders: int, teleport: Draw, d: ScatterDraws)
    ensures var delay := folderIndex as real * 0.1;
      var s := ScheduleOf(FolderTimeline(folderIndex, totalFolders, teleport, d));
      s.starts == [delay, delay + 0.3, delay + 0.3, delay + 0.3] && s.end == delay + 0.3 + 1.0
  {
    var tl := FolderTimeline(folderIndex, totalFolders, teleport, d);
    var delay := folderIndex as real * 0.1;
    assert tl[..0] == [];
    assert ScheduleOf(tl[..1]) == Schedule([delay], delay + 0.3) by { assert tl[..1][..0] == tl[..0]; }
    assert ScheduleOf(tl[..2]) == Schedule([delay, delay + 0.3], delay + 0.3) by { assert tl[..2][..1] == tl[..1]; }
    assert ScheduleOf(tl[..3]) == Schedule([delay, delay + 0.3, delay + 0.3], delay + 1.3) by { assert tl[..3][..2] == tl[..2]; }
    assert tl[..4] == tl;
    assert tl[..4][..3] == tl[..3];
  }

  /** After the lift the folder is at height 10 with X and Z untouched; after the
      teleport it is at (x, 3, 5) with x in [-2, 2). Both are intermediate only:
      the finished timeline leaves the folder exactly on its scatter target,
      whatever transform it started from. */
  lemma {:induction false} FolderTimelineStates(t: Transform, folderIndex: nat, totalFolders: int, teleport: Draw, d: ScatterDraws)
    ensures var tl := FolderTimeline(folderIndex, totalFolders, teleport, d);
      && Play(t, tl[..1]).position == t.position.(y := 10.0)
      && Play(t, tl[..2]).position == Vec3(teleport * 4.0 - 2.0, 3.0, 5.0)
      && -2.0 <= Play(t, tl[..2]).position.x < 2.0
      && Play(t, tl) == ScatterTransform(folderIndex, -0.7, totalFolders, d)
  {
    var tl := FolderTimeline(folderIndex, totalFolders, teleport, d);
    var target := ScatterTransform(folderIndex, TableHeight, totalFolders, d);
    var t1 := ApplyTween(t, tl[0]);
    var t2 := ApplyTween(t1, tl[1]);
    var t3 := ApplyTween(t2, tl[2]);
    var t4 := ApplyTween(t3, tl[3]);
    assert Play(t, tl[..1]) == t1 by {
      assert tl[..1][1..] == [];
    }
    assert Play(t, tl[..2]) == t2 by {
      assert tl[..2][1..] == [tl[1]] && [tl[1]][1..] == [];
      assert Play(t, tl[..2]) == Play(t1, [tl[1]]);
    }
    assert Play(t, tl) == t4 by {
      assert tl[1..] == [tl[1], tl[2], tl[3]];
      assert [tl[1], tl[2], tl[3]][1..] == [tl[2], tl[3]];
      assert [tl[2], tl[3]][1..] == [tl[3]];
      assert [tl[3]][1..] == [];
      assert Play(t3, [tl[3]]) == t4;
      assert Play(t2, [tl[2], tl[3]]) == t4;
      assert Play(t1, [tl[1], tl[2], tl[3]]) == t4;
    }
    assert t4 == target;
  }

  // ---------------------------------------------------------------------
  // The isAnimating flag protocol
  // ---------------------------------------------------------------------

  /** animateFolderToTable: marks the folder busy and returns the timeline it
      schedules; the mesh itself is only moved as the timeline plays. The
      layout uses `folderIndex`, not `folder.index`. */
  method AnimateFolderToTable(folder: FolderData, folderIndex: nat, totalFolders: int, teleport: Draw, d: ScatterDraws)
    returns (timeline: seq<Tween>)
    modifies folder
    ensures folder.isAnimating
    ensures unchanged(folder.mesh)
    ensures timeline == FolderTimeline(folderIndex, totalFolders, teleport, d)
    ensures ScheduleOf(timeline).end == folderIndex as real * StaggerStep + LiftDuration + SlideDuration
    ensures forall t :: Play(t, timeline) == ScatterTransform(folderIndex, TableHeight, totalFolders, d)
  {
    folder.isAnimating := true;
    timeline := FolderTimeline(folderIndex, totalFolders, teleport, d);
    FolderTimelineSchedule(folderIndex, totalFolders, teleport, d);
    forall t | true
      ensures Play(t, timeline) == ScatterTransform(folderIndex, TableHeight, totalFolders, d)
    {
      FolderTimelineStates(t, folderIndex, totalFolders, teleport, d);
    }
  }

  /** The timeline has played to its end and its onComplete callback ran: the
      mesh holds the timeline's end transform and the flag is cleared. This
      is the only place the flag goes back to false. */
  method FinishTimeline(folder: FolderData, timeline: seq<Tween>)
    modifies folder, folder.mesh
    ensures !folder.isAnimating
    ensures folder.mesh.CurrentTransform() == Play(old(folder.mesh.CurrentTransform()), timeline)
  {
    var t := Play(folder.mesh.CurrentTransform(), timeline);
    folder.mesh.position := t.position;
    folder.mesh.rotation := t.rotation;
    folder.isAnimating := false;
  }

  /** One whole animation: busy while the timeline runs, idle again at the
      end with the mesh on its scatter target. */
  method AnimateToCompletion(folder: FolderData, folderIndex: nat, totalFolders: int, teleport: Draw, d: ScatterDraws)
    returns (completedAt: real)
    modifies folder, folder.mesh
    ensures completedAt == folderIndex as real * 0.1 + 0.3 + 1.0
    ensures !folder.isAnimating
    ensures folder.mesh.CurrentTransform() == ScatterTransform(folderIndex, TableHeight, totalFolders, d)
  {
    var timeline := AnimateFolderToTable(folder, folderIndex, totalFolders, teleport, d);
    assert folder.isAnimating;
    completedAt := ScheduleOf(timeline).end;
    FinishTimeline(folder, timeline);
  }
}
