/**
 `_StateTracker`: the per-collaboration accumulator of the in-memory store.
 It holds an optional running delta and a dirty flag; setting a delta merges
 its updates into the running ones and replaces the checkpoint.
 */
module StateTracking {
  import opened FetchState

  class StateTracker<V, C> {
    /** The exchange's `naive_fetch_merge` (the tracker's `api_cls`). */
    const merge: MergeFn<V>
    /** `_delta`: none until a delta has been loaded or set. */
    var delta: Option<FetchDelta<V, C>>
    /** Set by every delta assignment, cleared by the store's flush. */
    var dirty: bool

    /** A tracker starts clean, holding whatever the store loaded for it. */
    constructor (merge: MergeFn<V>, delta: Option<FetchDelta<V, C>>)
      ensures this.merge == merge && this.delta == delta && !dirty
      ensures Empty() <==> delta.None?
      ensures Checkpoint() == CheckpointOf(delta)
    {
      this.merge := merge;
      this.delta := delta;
      dirty := false;
    }

    /** `empty`: no delta has been loaded or set, so the `delta` getter may not be read. */
    predicate Empty(): (e: bool)
      reads this
      ensures e ==> CheckpointOf(delta) == None && PriorUpdates(delta) == map[]
    {
      delta.None?
    }

    /** The `delta` getter; reading it on an empty tracker is a caller error. */
    function Delta(): (d: FetchDelta<V, C>)
      reads this
      requires !Empty()
      ensures delta == Some(d)
    {
      delta.value
    }

    /** `checkpoint`: none for an empty tracker, else the running delta's checkpoint. */
    function Checkpoint(): (cp: Option<C>)
      reads this
      ensures Empty() ==> cp == None
      ensures !Empty() ==> cp == Delta().checkpoint
      ensures cp.Some? ==> !Empty()
    {
      CheckpointOf(delta)
    }

    /**
     The `delta` setter. The first assignment merges into `{}`; later ones
     merge into the running updates. Either way the checkpoint becomes
     `value`'s and the tracker becomes dirty.
     */
    method SetDelta(value: FetchDelta<V, C>)
      modifies this
      ensures delta == Some(Absorb(old(delta), value, merge))
      ensures !Empty() && dirty
      ensures Checkpoint() == value.checkpoint
      ensures Delta().updates == merge(if old(Empty()) then map[] else old(Delta()).updates, value.updates)
    {
      var prior: map<string, V>;
      if delta.None? {
        prior := map[];
        delta := Some(value);
      } else {
        prior := delta.value.updates;
      }
      var merged := merge(prior, value.updates);
      delta := Some(delta.value.(updates := merged, checkpoint := value.checkpoint));
      dirty := true;
    }
  }
}
