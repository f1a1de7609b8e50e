/**
 * The main-thread mesh scheduler of Assets/Scripts/ChunkBuilder.cs.  Meshes
 * computed by worker threads wait in `buildQueue`; each frame the entry whose
 * chunk is nearest to the centre is taken out and applied.
 *
 * The queued entries are kept abstract (`T`), and the distance of an entry's
 * chunk from the centre is a parameter, because the code that computes it is
 * not part of this model.
 */
module ChunkBuilding {
  import opened Wrappers

  /** C#'s `int.MaxValue`, the scheduler's initial best distance. */
  const IntMax: int := 0x7fff_ffff

  /**
   * The index the scheduler picks: the first entry of smallest distance,
   * computed the way the scan does it (a strictly smaller distance replaces
   * the current best).
   */
  function NearestIndex<T>(queue: seq<T>, distance: T -> int): (i: nat)
    requires |queue| > 0
    ensures i < |queue|
    ensures forall j :: 0 <= j < |queue| ==> distance(queue[i]) <= distance(queue[j])
    ensures forall j :: 0 <= j < i ==> distance(queue[i]) < distance(queue[j])
    decreases |queue|
  {
    if |queue| == 1 then 0
    else
      var init := queue[..|queue| - 1];
      var best := NearestIndex(init, distance);
      assert forall j :: 0 <= j < |init| ==> init[j] == queue[j];
      if distance(queue[|queue| - 1]) < distance(queue[best]) then |queue| - 1 else best
  }

  /** The first-minimum property determines the index: nothing else meets it. */
  lemma {:induction false} NearestIndexUnique<T>(queue: seq<T>, distance: T -> int, k: nat)
    requires k < |queue|
    requires forall j :: 0 <= j < |queue| ==> distance(queue[k]) <= distance(queue[j])
    requires forall j :: 0 <= j < k ==> distance(queue[k]) < distance(queue[j])
    ensures NearestIndex(queue, distance) == k
  {
  }

  /**
   * The scan of `Update` as a loop: the index of the first entry with the
   * smallest distance.
   */
  method SelectNearest<T>(queue: seq<T>, distance: T -> int) returns (minId: int)
    requires |queue| > 0
    ensures 0 <= minId < |queue|
    ensures minId == NearestIndex(queue, distance)
  {
    var minDist := IntMax;
    minId := -1;
    var i := 0;
    while i < |queue|
      invariant 0 <= i <= |queue|
      invariant i == 0 <==> minId == -1
      invariant i > 0 ==> 0 <= minId < i && minId == NearestIndex(queue[..i], distance)
                          && minDist == distance(queue[minId])
    {
      if minId == -1 || distance(queue[i]) < minDist {
        minDist := distance(queue[i]);
        minId := i;
      }
      assert queue[..i + 1][..i] == queue[..i];
      i := i + 1;
    }
    assert queue[..|queue|] == queue;
  }

  /** The owner of the queue of computed meshes. */
  class ChunkBuilder<T> {
    var buildQueue: seq<T>

    constructor ()
      ensures buildQueue == []
    {
      buildQueue := [];
    }

    /** A worker thread hands over a finished mesh. */
    method Enqueue(data: T)
      modifies this
      ensures buildQueue == old(buildQueue) + [data]
    {
      buildQueue := buildQueue + [data];
    }

    /**
     * One frame: when the queue is not empty, the nearest entry is removed
     * and returned (to be applied); the other entries keep their order.
     */
    method Update(distance: T -> int) returns (applied: Option<T>)
      modifies this
      ensures old(buildQueue) == [] ==> applied == None && buildQueue == []
      ensures old(buildQueue) != [] ==>
        var i := NearestIndex(old(buildQueue), distance);
        applied == Some(old(buildQueue)[i]) &&
        buildQueue == old(buildQueue)[..i] + old(buildQueue)[i + 1..]
      ensures applied.Some? ==> multiset(old(buildQueue)) == multiset(buildQueue) + multiset{applied.value}
    {
      if |buildQueue| > 0 {
        var minId := SelectNearest(buildQueue, distance);
        var data := buildQueue[minId];
        ghost var before := buildQueue;
        buildQueue := buildQueue[..minId] + buildQueue[minId + 1..];
        assert before == before[..minId] + [data] + before[minId + 1..];
        applied := Some(data);
      } else {
        applied := None;
      }
    }
  }
}
