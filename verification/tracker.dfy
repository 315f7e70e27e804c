/** The swapchain bookkeeping of the layer: the per-swapchain queue of
    acquired image indices, the last released index, the cached image lists,
    and how `xrEndFrame` picks, for each view of the first projection layer,
    the image to process. */
module Tracker {
  import opened XrTypes
  import opened PassPlan

  /** `m_acquired`, `m_lastReleased` and `m_swapchainImages`; an image is a
      texture handle, or none for a null texture pointer. */
  datatype Tracker = Tracker(
    acquired: map<Swapchain, seq<u32>>,
    lastReleased: map<Swapchain, Option<u32>>,
    images: map<Swapchain, seq<Option<Handle>>>)

  /** `m_acquired[sc]`: a swapchain never seen has an empty queue. */
  function QueueOf(t: Tracker, sc: Swapchain): seq<u32> {
    if sc in t.acquired then t.acquired[sc] else []
  }

  /** `m_lastReleased[sc]`: a swapchain never seen has no released image. */
  function LastOf(t: Tracker, sc: Swapchain): Option<u32> {
    if sc in t.lastReleased then t.lastReleased[sc] else None
  }

  /** A successful `xrAcquireSwapchainImage`: the index joins the back of
      the swapchain's queue. */
  function Acquire(t: Tracker, sc: Swapchain, index: u32): (r: Tracker)
    ensures QueueOf(r, sc) == QueueOf(t, sc) + [index]
    ensures r.lastReleased == t.lastReleased && r.images == t.images
    ensures forall other :: other != sc ==> QueueOf(r, other) == QueueOf(t, other)
  {
    t.(acquired := t.acquired[sc := QueueOf(t, sc) + [index]])
  }

  /** A successful `xrReleaseSwapchainImage`: the front of the queue becomes
      the last released index; with an empty queue the last released index
      stays. Both maps gain an entry for the swapchain either way. */
  function Release(t: Tracker, sc: Swapchain): (r: Tracker)
    ensures sc in r.acquired && sc in r.lastReleased
    ensures |QueueOf(t, sc)| > 0 ==> LastOf(r, sc) == Some(QueueOf(t, sc)[0]) && QueueOf(t, sc) == [QueueOf(t, sc)[0]] + QueueOf(r, sc)
    ensures |QueueOf(t, sc)| == 0 ==> LastOf(r, sc) == LastOf(t, sc) && QueueOf(r, sc) == []
    ensures r.images == t.images
    ensures forall other :: other != sc ==> QueueOf(r, other) == QueueOf(t, other) && LastOf(r, other) == LastOf(t, other)
  {
    var q := QueueOf(t, sc);
    if |q| > 0 then
      t.(acquired := t.acquired[sc := q[1..]], lastReleased := t.lastReleased[sc := Some(q[0])])
    else
      t.(acquired := t.acquired[sc := q], lastReleased := t.lastReleased[sc := LastOf(t, sc)])
  }

  /** `xrDestroySwapchain`: the three entries of the swapchain are erased and
      every other swapchain keeps its own. */
  function Destroy(t: Tracker, sc: Swapchain): (r: Tracker)
    ensures sc !in r.acquired && sc !in r.lastReleased && sc !in r.images
    ensures forall other :: other != sc ==>
      && (other in r.acquired <==> other in t.acquired) && QueueOf(r, other) == QueueOf(t, other)
      && (other in r.lastReleased <==> other in t.lastReleased) && LastOf(r, other) == LastOf(t, other)
      && (other in r.images <==> other in t.images) && (other in t.images ==> r.images[other] == t.images[other])
  {
    Tracker(t.acquired - {sc}, t.lastReleased - {sc}, t.images - {sc})
  }

  function AcquireAll(t: Tracker, sc: Swapchain, indices: seq<u32>): Tracker
    decreases |indices|
  {
    if |indices| == 0 then t else AcquireAll(Acquire(t, sc, indices[0]), sc, indices[1..])
  }

  function ReleaseTimes(t: Tracker, sc: Swapchain, k: nat): Tracker
    decreases k
  {
    if k == 0 then t else ReleaseTimes(Release(t, sc), sc, k - 1)
  }

  lemma {:induction false} AcquireAllAppends(t: Tracker, sc: Swapchain, indices: seq<u32>)
    ensures QueueOf(AcquireAll(t, sc, indices), sc) == QueueOf(t, sc) + indices
    ensures LastOf(AcquireAll(t, sc, indices), sc) == LastOf(t, sc)
    decreases |indices|
  {
    if |indices| > 0 {
      AcquireAllAppends(Acquire(t, sc, indices[0]), sc, indices[1..]);
      assert QueueOf(t, sc) + [indices[0]] + indices[1..] == QueueOf(t, sc) + indices;
    }
  }

  lemma {:induction false} ReleaseTimesPops(t: Tracker, sc: Swapchain, k: nat)
    requires 1 <= k <= |QueueOf(t, sc)|
    ensures QueueOf(ReleaseTimes(t, sc, k), sc) == QueueOf(t, sc)[k..]
    ensures LastOf(ReleaseTimes(t, sc, k), sc) == Some(QueueOf(t, sc)[k - 1])
    decreases k
  {
    var t1 := Release(t, sc);
    assert QueueOf(t1, sc) == QueueOf(t, sc)[1..];
    if k > 1 {
      ReleaseTimesPops(t1, sc, k - 1);
      assert QueueOf(t1, sc)[k - 1..] == QueueOf(t, sc)[k..];
    }
  }

  /** The queue is first in, first out: after acquiring `indices` on a
      swapchain with an empty queue and releasing `k` times, the last
      released index is the `k`-th acquired one and the rest wait in order. */
  lemma ReleasesFollowAcquireOrder(t: Tracker, sc: Swapchain, indices: seq<u32>, k: nat)
    requires QueueOf(t, sc) == []
    requires 1 <= k <= |indices|
    ensures var r := ReleaseTimes(AcquireAll(t, sc, indices), sc, k);
      LastOf(r, sc) == Some(indices[k - 1]) && QueueOf(r, sc) == indices[k..]
  {
    AcquireAllAppends(t, sc, indices);
    ReleaseTimesPops(AcquireAll(t, sc, indices), sc, k);
  }

  /** Acquiring 0, 1 and 2 and then releasing twice leaves 1 as the last
      released index and 2 in the queue. */
  lemma AcquireThreeReleaseTwo(sc: Swapchain)
    ensures var t := Tracker(map[], map[], map[]);
      var r := Release(Release(Acquire(Acquire(Acquire(t, sc, 0), sc, 1), sc, 2), sc), sc);
      LastOf(r, sc) == Some(1) && QueueOf(r, sc) == [2]
  {
    var t := Tracker(map[], map[], map[]);
    ReleasesFollowAcquireOrder(t, sc, [0, 1, 2], 2);
    assert AcquireAll(t, sc, [0, 1, 2]) == Acquire(Acquire(Acquire(t, sc, 0), sc, 1), sc, 2) by {
      assert [0, 1, 2][1..] == [1, 2] && [1, 2][1..] == [2] && [2][1..] == [];
    }
  }

  /** A release that finds nothing to pop still records the swapchain, with
      no released image if there was none before. */
  lemma ReleaseWithoutAcquireRecordsNothing(t: Tracker, sc: Swapchain)
    requires sc !in t.acquired && sc !in t.lastReleased
    ensures var r := Release(t, sc);
      r.acquired[sc] == [] && r.lastReleased[sc] == None
  {
  }

  /** Caching an enumeration (`insert_or_assign`): only a successful,
      non-empty enumeration replaces the list. */
  function CacheImages(images: map<Swapchain, seq<Option<Handle>>>, sc: Swapchain,
                       enumerated: Option<seq<Option<Handle>>>): (r: map<Swapchain, seq<Option<Handle>>>)
    ensures enumerated.Some? && |enumerated.value| > 0 ==> sc in r && r[sc] == enumerated.value
    ensures enumerated.None? || |enumerated.value| == 0 ==> r == images
    ensures forall other :: other != sc ==> (other in r <==> other in images)
    ensures forall other :: other != sc && other in images ==> r[other] == images[other]
  {
    if enumerated.Some? && |enumerated.value| > 0 then images[sc := enumerated.value] else images
  }

  /** A layer of the frame: a projection layer with the sub-images of its
      views, another layer type, or a null layer pointer. */
  datatype CompositionLayer = Projection(views: seq<SubImage>) | OtherLayer(layerType: int) | NullLayer

  /** The first projection layer among the submitted layers. */
  function FirstProjection(layers: seq<CompositionLayer>): (r: Option<nat>)
    ensures r.Some? ==> r.value < |layers| && layers[r.value].Projection?
    ensures r.Some? ==> forall j :: 0 <= j < r.value ==> !layers[j].Projection?
    ensures r.None? ==> forall j :: 0 <= j < |layers| ==> !layers[j].Projection?
  {
    if |layers| == 0 then None
    else if layers[0].Projection? then Some(0)
    else match FirstProjection(layers[1..])
      case Some(i) => Some(i + 1)
      case None => None
  }

  /** The search of `xrEndFrame` for the first projection layer. */
  method FindFirstProjection(layers: seq<CompositionLayer>) returns (index: Option<nat>)
    ensures index == FirstProjection(layers)
  {
    var i := 0;
    while i < |layers|
      invariant 0 <= i <= |layers|
      invariant forall j :: 0 <= j < i ==> !layers[j].Projection?
    {
      if layers[i].Projection? {
        return Some(i);
      }
      i := i + 1;
    }
    return None;
  }

  /** The views processed in a frame: those of the first projection layer,
      none if there is no such layer. */
  function ViewsToProcess(layers: seq<CompositionLayer>): seq<SubImage> {
    match FirstProjection(layers)
    case Some(i) => layers[i].views
    case None => []
  }

  lemma {:induction false} LaterProjectionsIgnored(before: seq<CompositionLayer>, views: seq<SubImage>, after: seq<CompositionLayer>)
    requires forall j :: 0 <= j < |before| ==> !before[j].Projection?
    ensures ViewsToProcess(before + [Projection(views)] + after) == views
  {
    var layers := before + [Projection(views)] + after;
    assert layers[|before|] == Projection(views);
    forall j | 0 <= j < |before|
      ensures !layers[j].Projection?
    {
      assert layers[j] == before[j];
    }
  }

  /** The image chosen for one view, and the image lists afterwards: the
      swapchain must have a released index; its list is the cached one or,
      when none is cached, the one `enumerate` yields (cached on success);
      the index must be inside the list and the texture must not be null. */
  function SelectImage(t: Tracker, sub: SubImage, enumerate: Swapchain -> Option<seq<Option<Handle>>>)
    : (r: (Option<Handle>, map<Swapchain, seq<Option<Handle>>>))
    ensures sub.swapchain in t.images ==> r.1 == t.images
    ensures forall other :: other != sub.swapchain ==> (other in r.1 <==> other in t.images)
    ensures forall other :: other != sub.swapchain && other in t.images ==> r.1[other] == t.images[other]
    ensures r.0.Some? <==>
      && LastOf(t, sub.swapchain).Some?
      && sub.swapchain in r.1
      && LastOf(t, sub.swapchain).value < |r.1[sub.swapchain]|
      && r.1[sub.swapchain][LastOf(t, sub.swapchain).value].Some?
    ensures r.0.Some? ==> r.0 == r.1[sub.swapchain][LastOf(t, sub.swapchain).value]
  {
    var sc := sub.swapchain;
    match LastOf(t, sc)
    case None => (None, t.images)
    case Some(idx) =>
      var images := if sc in t.images then t.images else CacheImages(t.images, sc, enumerate(sc));
      if sc in images && idx < |images[sc]| then (images[sc][idx], images) else (None, images)
  }

  /** The images chosen for all views, in order; a fallback enumeration made
      for one view is cached for the next ones. */
  function SelectAll(t: Tracker, views: seq<SubImage>, enumerate: Swapchain -> Option<seq<Option<Handle>>>)
    : (r: (seq<Option<Handle>>, map<Swapchain, seq<Option<Handle>>>))
    ensures |r.0| == |views|
    decreases |views|
  {
    if |views| == 0 then ([], t.images)
    else
      var first := SelectImage(t, views[0], enumerate);
      var rest := SelectAll(t.(images := first.1), views[1..], enumerate);
      ([first.0] + rest.0, rest.1)
  }

  /** Only the image lists change while views are selected, and a list
      cached before the frame is never replaced. */
  lemma {:induction false} SelectAllKeepsCachedLists(t: Tracker, views: seq<SubImage>,
                                                     enumerate: Swapchain -> Option<seq<Option<Handle>>>)
    ensures var r := SelectAll(t, views, enumerate);
      forall sc :: sc in t.images ==> sc in r.1 && r.1[sc] == t.images[sc]
    decreases |views|
  {
    if |views| > 0 {
      var first := SelectImage(t, views[0], enumerate);
      SelectAllKeepsCachedLists(t.(images := first.1), views[1..], enumerate);
    }
  }
}
