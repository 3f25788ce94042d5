/** Click handling for the folders: pointer pixels become device
    coordinates, and the distance-ordered hits of the ray cast are classified
    as a trigger click, a click on the holder, or neither. The ray cast itself
    is outside the model: its hits are an input. */
module FolderInteractions {
  import opened SceneGraph

  /** The `userData.type` tag of the invisible trigger sphere. */
  const FolderTriggerTag: string := "folderTrigger"
  /** The name of the holder node in the world model. */
  const HolderName: string := "fileHolder"

  /** One ray-cast hit: the object hit, then its parents from nearest to the root. */
  datatype Hit = Hit(node: Node, ancestors: seq<Node>, distance: real)

  /** What the click does with the `onFolderTriggerClick` callback: nothing,
      a call with no argument, or a call with the folder at position `k` of
      the folder list. */
  datatype ClickAction = NoCallback | TriggerAll | TriggerFolder(k: nat)

  // ---------------------------------------------------------------------
  // Device coordinates
  // ---------------------------------------------------------------------

  /** Horizontal pixel to device coordinate. */
  function NdcX(clientX: real, width: real): real
    requires width > 0.0
  {
    (clientX / width) * 2.0 - 1.0
  }

  /** Vertical pixel to device coordinate (the axis is flipped). */
  function NdcY(clientY: real, height: real): real
    requires height > 0.0
  {
    -(clientY / height) * 2.0 + 1.0
  }

  /** Pixels inside the window land in [-1, 1] on both axes. */
  lemma NdcInRange(clientX: real, clientY: real, width: real, height: real)
    requires width > 0.0 && height > 0.0
    requires 0.0 <= clientX <= width && 0.0 <= clientY <= height
    ensures -1.0 <= NdcX(clientX, width) <= 1.0
    ensures -1.0 <= NdcY(clientY, height) <= 1.0
  {
    assert clientX / width * width == clientX;
    assert clientY / height * height == clientY;
  }

  /** The top-left corner is (-1, 1) and the bottom-right corner is (1, -1). */
  lemma NdcCorners(width: real, height: real)
    requires width > 0.0 && height > 0.0
    ensures NdcX(0.0, width) == -1.0 && NdcY(0.0, height) == 1.0
    ensures NdcX(width, width) == 1.0 && NdcY(height, height) == -1.0
  {
  }

  /** Moving right raises X; moving down lowers Y. */
  lemma NdcMonotone(a: real, b: real, width: real, height: real)
    requires width > 0.0 && height > 0.0 && a < b
    ensures NdcX(a, width) < NdcX(b, width)
    ensures NdcY(a, height) > NdcY(b, height)
  {
    assert b / width - a / width == (b - a) / width > 0.0;
    assert b / height - a / height == (b - a) / height > 0.0;
  }

  /** The normalisation loses nothing: the pixel can be recovered. */
  lemma NdcRoundTrip(clientX: real, clientY: real, width: real, height: real)
    requires width > 0.0 && height > 0.0
    ensures (NdcX(clientX, width) + 1.0) / 2.0 * width == clientX
    ensures (1.0 - NdcY(clientY, height)) / 2.0 * height == clientY
  {
    assert (NdcX(clientX, width) + 1.0) / 2.0 == clientX / width;
    assert (1.0 - NdcY(clientY, height)) / 2.0 == clientY / height;
  }

  // ---------------------------------------------------------------------
  // Classification (specification)
  // ---------------------------------------------------------------------

  predicate IsTriggerHit(h: Hit) {
    h.node.userType == Some(FolderTriggerTag)
  }

  /** The object hit followed by every ancestor reached through `parent`. */
  function Chain(h: Hit): (c: seq<Node>)
    ensures |c| == |h.ancestors| + 1 && c[0] == h.node
  {
    [h.node] + h.ancestors
  }

  /** A node is the holder itself or is named like it. */
  predicate MarksHolder(n: Node, holder: Node) {
    n.id == holder.id || n.name == HolderName
  }

  predicate IsHolderHit(h: Hit, holder: Node) {
    exists k :: 0 <= k < |Chain(h)| && MarksHolder(Chain(h)[k], holder)
  }

  predicate AnyTriggerHit(hits: seq<Hit>) {
    exists i :: 0 <= i < |hits| && IsTriggerHit(hits[i])
  }

  predicate AnyHolderHit(hits: seq<Hit>, holder: Node) {
    exists i :: 0 <= i < |hits| && IsHolderHit(hits[i], holder)
  }

  /** Position of the first folder that is not animating, if any. */
  function FirstIdle(busy: seq<bool>): (r: Option<nat>)
    ensures r.Some? <==> exists i :: 0 <= i < |busy| && !busy[i]
    ensures r.Some? ==> r.value < |busy| && !busy[r.value]
    ensures r.Some? ==> forall j :: 0 <= j < r.value ==> busy[j]
  {
    if busy == [] then None
    else if !busy[0] then Some(0)
    else
      match FirstIdle(busy[1..])
      case None => None
      case Some(k) => Some(k + 1)
  }

  /** The decision handleFolderClick makes, given the current holder, the
      hits of the ray cast and the busy flags of the folder list. */
  function Classify(holder: Option<Node>, hits: seq<Hit>, busy: seq<bool>): (a: ClickAction)
    // no holder yet, or nothing hit: no callback
    ensures holder.None? || hits == [] ==> a == NoCallback
    // a trigger hit anywhere in the list wins
    ensures a == TriggerAll <==> holder.Some? && AnyTriggerHit(hits)
    // otherwise a holder hit selects the first idle folder
    ensures a.TriggerFolder? <==>
      holder.Some? && !AnyTriggerHit(hits) && AnyHolderHit(hits, holder.value) && exists i :: 0 <= i < |busy| && !busy[i]
    ensures a.TriggerFolder? ==> a.k < |busy| && !busy[a.k] && forall j :: 0 <= j < a.k ==> busy[j]
  {
    if holder.None? then NoCallback
    else if hits == [] then NoCallback
    else if AnyTriggerHit(hits) then TriggerAll
    else if AnyHolderHit(hits, holder.value) then
      match FirstIdle(busy)
      case Some(k) => TriggerFolder(k)
      case None => NoCallback
    else NoCallback
  }

  /** The trigger wins even when a holder hit is nearer to the camera. */
  lemma TriggerBeatsNearerHolder(holder: Node, holderHit: Hit, triggerHit: Hit, rest: seq<Hit>, busy: seq<bool>)
    requires IsHolderHit(holderHit, holder) && IsTriggerHit(triggerHit)
    ensures Classify(Some(holder), [holderHit, triggerHit] + rest, busy) == TriggerAll
  {
    assert IsTriggerHit(([holderHit, triggerHit] + rest)[1]);
  }

  /** A hit on a part of the holder selects the first idle folder, however
      deep below the holder the part is. */
  lemma HolderDescendantSelectsFirstIdle(holder: Node, part: Node, between: seq<Node>, distance: real, busy: seq<bool>, k: nat)
    requires part.userType != Some(FolderTriggerTag)
    requires k < |busy| && !busy[k] && forall j :: 0 <= j < k ==> busy[j]
    ensures Classify(Some(holder), [Hit(part, between + [holder], distance)], busy) == TriggerFolder(k)
  {
    var h := Hit(part, between + [holder], distance);
    assert Chain(h)[|between| + 1] == holder;
    assert IsHolderHit([h][0], holder);
    assert forall i :: 0 <= i < |[h]| ==> [h][i] == h;
  }

  // ---------------------------------------------------------------------
  // The click handler
  // ---------------------------------------------------------------------

  /** The closure state of createFolderInteraction: the shared pointer vector. */
  class FolderInteraction {
    var mouseX: real
    var mouseY: real

    constructor ()
      ensures mouseX == 0.0 && mouseY == 0.0
    {
      mouseX, mouseY := 0.0, 0.0;
    }

    /** Walks from the object hit up through its parents looking for the holder. */
    static method WalksToHolder(hit: Hit, holder: Node) returns (found: bool)
      ensures found <==> IsHolderHit(hit, holder)
    {
      var chain := Chain(hit);
      var k := 0;
      while k < |chain|
        invariant 0 <= k <= |chain|
        invariant forall j :: 0 <= j < k ==> !MarksHolder(chain[j], holder)
      {
        if chain[k].id == holder.id || chain[k].name == HolderName {
          return true;
        }
        k := k + 1;
      }
      return false;
    }

    /** handleFolderClick after the ray cast: `holder` is what the holder getter
        returns now and `hits` are the intersections, nearest first. Reads the
        folder flags and changes nothing. */
    method HandleFolderClick(holder: Option<Node>, hits: seq<Hit>, folders: seq<FolderData>)
      returns (action: ClickAction)
      ensures action == Classify(holder, hits, Flags(folders))
    {
      if holder.None? {
        return NoCallback;
      }
      if |hits| == 0 {
        return NoCallback;
      }
      var i := 0;
      while i < |hits|
        invariant 0 <= i <= |hits|
        invariant forall j :: 0 <= j < i ==> !IsTriggerHit(hits[j])
      {
        if hits[i].node.userType == Some(FolderTriggerTag) {
          return TriggerAll;
        }
        i := i + 1;
      }
      i := 0;
      var holderHit := false;
      while i < |hits| && !holderHit
        invariant 0 <= i <= |hits|
        invariant holderHit ==> AnyHolderHit(hits, holder.value)
        invariant !holderHit ==> forall j :: 0 <= j < i ==> !IsHolderHit(hits[j], holder.value)
      {
        holderHit := WalksToHolder(hits[i], holder.value);
        i := i + 1;
      }
      if !holderHit {
        return NoCallback;
      }
      var k := 0;
      while k < |folders|
        invariant 0 <= k <= |folders|
        invariant forall j :: 0 <= j < k ==> folders[j].isAnimating
      {
        if !folders[k].isAnimating {
          return TriggerFolder(k);
        }
        k := k + 1;
      }
      return NoCallback;
    }

    /** onMouseClick: stores the device coordinates of the click in the shared
        pointer, then classifies the hits of a ray through that point. */
    method OnMouseClick(clientX: real, clientY: real, width: real, height: real,
                        holder: Option<Node>, hits: seq<Hit>, folders: seq<FolderData>)
      returns (action: ClickAction)
      requires width > 0.0 && height > 0.0
      modifies this
      ensures mouseX == NdcX(clientX, width) && mouseY == NdcY(clientY, height)
      ensures action == Classify(holder, hits, Flags(folders))
    {
      mouseX := (clientX / width) * 2.0 - 1.0;
      mouseY := -(clientY / height) * 2.0 + 1.0;
      action := HandleFolderClick(holder, hits, folders);
    }
  }
}
