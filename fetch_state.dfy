/**
 The values shared by both fetched-state stores of `exchanges/helpers.py`:
 a fetched delta, the external per-exchange merge and convert functions
 (uninterpreted: they are parameters), the no-op test and the fold of a
 stream of deltas into one running delta.
 */
module FetchState {

  datatype Option<T> = None | Some(value: T)

  /** One fetched batch: record id -> update record, and the checkpoint reached after it. */
  datatype FetchDelta<V, C> = FetchDelta(updates: map<string, V>, checkpoint: Option<C>)

  /**
   `naive_fetch_merge(existing, new)` of the exchange: it mutates `existing`
   in place; here it returns what `existing` holds afterwards.
   */
  type MergeFn<!V> = (map<string, V>, map<string, V>) -> map<string, V>

  /**
   `naive_convert_to_signal_type([t], collab, data)` of the exchange: for the
   requested signal type `t` (a one-element list in the source), the
   collaboration name and the fetched records, a map from signal type to
   converted records.
   */
  type Converter<-R, !T, M> = (T, string, map<string, R>) -> map<T, map<string, M>>

  /** The checkpoint of an optional delta: none when there is no delta. */
  function CheckpointOf<V, C>(d: Option<FetchDelta<V, C>>): Option<C>
  {
    if d.None? then None else d.value.checkpoint
  }

  /**
   A tracker's `checkpoint` is none exactly when it is `empty`, provided the
   deltas it was given carry a checkpoint; otherwise it is the delta's own.
   */
  lemma CheckpointNoneIffEmpty<V, C>(d: Option<FetchDelta<V, C>>)
    requires d.Some? ==> d.value.checkpoint.Some?
    ensures CheckpointOf(d).None? <==> d.None?
    ensures d.Some? ==> CheckpointOf(d) == d.value.checkpoint
  {
  }

  /**
   The no-op test both stores apply before merging: no updates, and a
   checkpoint that is absent or equal to the one already known.
   */
  predicate IsNoOp<V, C(==)>(d: FetchDelta<V, C>, current: Option<C>)
  {
    |d.updates| == 0 && (d.checkpoint == None || d.checkpoint == current)
  }

  /** The updates a tracker merges into: its own, or `{}` when it holds no delta yet. */
  function PriorUpdates<V, C>(prev: Option<FetchDelta<V, C>>): map<string, V>
  {
    if prev.None? then map[] else prev.value.updates
  }

  /** The running delta after one more delta is set on a tracker. */
  function Absorb<V, C>(prev: Option<FetchDelta<V, C>>, value: FetchDelta<V, C>, merge: MergeFn<V>): FetchDelta<V, C>
  {
    FetchDelta(merge(PriorUpdates(prev), value.updates), value.checkpoint)
  }

  /** Setting every delta of `ds`, in order, on a tracker that holds `prev`. */
  function Accumulate<V, C>(prev: Option<FetchDelta<V, C>>, ds: seq<FetchDelta<V, C>>, merge: MergeFn<V>): Option<FetchDelta<V, C>>
    decreases |ds|
  {
    if ds == [] then prev else Accumulate(Some(Absorb(prev, ds[0], merge)), ds[1..], merge)
  }

  /** Folding the update maps of `ds` left to right into `m` with the merge function. */
  function FoldMerge<V, C>(m: map<string, V>, ds: seq<FetchDelta<V, C>>, merge: MergeFn<V>): map<string, V>
    decreases |ds|
  {
    if ds == [] then m else FoldMerge(merge(m, ds[0].updates), ds[1..], merge)
  }

  /**
   Merge accumulation matches sequential application: after a non-empty
   stream of deltas the running updates are the left fold of their update
   maps with the merge function, and the checkpoint is the last delta's.
   */
  lemma {:induction false} AccumulateIsFold<V, C>(prev: Option<FetchDelta<V, C>>, ds: seq<FetchDelta<V, C>>, merge: MergeFn<V>)
    requires ds != []
    ensures Accumulate(prev, ds, merge)
            == Some(FetchDelta(FoldMerge(PriorUpdates(prev), ds, merge), ds[|ds| - 1].checkpoint))
    decreases |ds|
  {
    if |ds| > 1 {
      AccumulateIsFold(Some(Absorb(prev, ds[0], merge)), ds[1..], merge);
    }
  }

  /** `convert(...).get(t, {})`: the records of one collaboration converted to signal type `t`. */
  function Project<R, T(==), M>(convert: Converter<R, T, M>, t: T, name: string, data: map<string, R>): map<string, M>
  {
    var bySignal := convert(t, name, data);
    if t in bySignal then bySignal[t] else map[]
  }
}
