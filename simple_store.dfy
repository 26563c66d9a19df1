/**
 `SimpleFetchedStateStore`: merges deltas in memory, one `StateTracker` per
 collaboration name, and writes the dirty ones out on flush.

 The abstract hooks are parameters: `_read_state` is the function `readState`
 fixed at construction, and every `_write_state(name, delta)` call appends
 `(name, delta)` to the field `written`.

 The store's abstract value is `View()`: for every loaded name, the tracker's
 delta and dirty flag. Each method states its new `View()` as a function of
 the old one; the lemmas below are about those functions.
 */
module SimpleStore {
  import opened FetchState
  import opened StateTracking

  /** What one tracker holds: its optional running delta and its dirty flag. */
  datatype Tracked<V, C> = Tracked(delta: Option<FetchDelta<V, C>>, dirty: bool)

  type View<V, C> = map<string, Tracked<V, C>>

  /** `_get_state`: a name not yet loaded gets a clean tracker holding `_read_state(name)`. */
  function Loaded<V, C>(v: View<V, C>, name: string, read: string -> Option<FetchDelta<V, C>>): View<V, C>
  {
    if name in v then v else v[name := Tracked(read(name), false)]
  }

  /** `_get_state` applied to every name of `names`. */
  function LoadedAll<V, C>(v: View<V, C>, names: seq<string>, read: string -> Option<FetchDelta<V, C>>): View<V, C>
  {
    map n | n in v.Keys + (set m | m in names) :: if n in v then v[n] else Tracked(read(n), false)
  }

  /** `merge`: load the tracker, then skip a no-op delta or set it on the tracker. */
  function Merged<V, C(==)>(v: View<V, C>, name: string, d: FetchDelta<V, C>,
                            read: string -> Option<FetchDelta<V, C>>, merge: MergeFn<V>): View<V, C>
  {
    var loaded := Loaded(v, name, read);
    if IsNoOp(d, CheckpointOf(loaded[name].delta)) then loaded
    else loaded[name := Tracked(Some(Absorb(loaded[name].delta, d, merge)), true)]
  }

  /** `merge` applied to every delta of `ds`, in order, for one name. */
  function MergedAll<V, C(==)>(v: View<V, C>, name: string, ds: seq<FetchDelta<V, C>>,
                               read: string -> Option<FetchDelta<V, C>>, merge: MergeFn<V>): View<V, C>
    decreases |ds|
  {
    if ds == [] then v else MergedAll(Merged(v, name, ds[0], read, merge), name, ds[1..], read, merge)
  }

  /** `flush` on the trackers: every delta kept, every dirty flag cleared. */
  function Flushed<V, C>(v: View<V, C>): View<V, C>
  {
    map n | n in v :: v[n].(dirty := false)
  }

  function DirtyNames<V, C>(v: View<V, C>): set<string>
  {
    set n | n in v && v[n].dirty
  }

  function NamesOf<D>(w: seq<(string, D)>): set<string>
  {
    set i | 0 <= i < |w| :: w[i].0
  }

  predicate DistinctNames<D>(w: seq<(string, D)>)
  {
    forall i, j :: 0 <= i < j < |w| ==> w[i].0 != w[j].0
  }

  /**
   `w` is what one `flush` of `v` hands to `_write_state`: one call per dirty
   tracker, with its delta, no name twice, and no call for a clean tracker.
   */
  ghost predicate IsFlushLog<V, C>(v: View<V, C>, w: seq<(string, FetchDelta<V, C>)>)
  {
    && DistinctNames(w)
    && (forall i :: 0 <= i < |w| ==> w[i].0 in v && v[w[i].0].dirty && v[w[i].0].delta == Some(w[i].1))
    && NamesOf(w) == DirtyNames(v)
  }

  /** The `_write_state` call `flush` makes for `name`: one if its tracker is dirty, none if clean. */
  function FlushWrite<V, C>(v: View<V, C>, name: string): seq<(string, FetchDelta<V, C>)>
    requires name in v
  {
    if v[name].dirty && v[name].delta.Some? then [(name, v[name].delta.value)] else []
  }

  /** The trackers while `flush` still has the names in `pending` to visit. */
  function PartlyFlushed<V, C>(v: View<V, C>, pending: set<string>): View<V, C>
  {
    map n | n in v :: v[n].(dirty := v[n].dirty && n in pending)
  }

  /** `w` is what `flush` of `v` has written once only the names in `pending` are left to visit. */
  ghost predicate IsPartialFlushLog<V, C>(v: View<V, C>, pending: set<string>, w: seq<(string, FetchDelta<V, C>)>)
  {
    && DistinctNames(w)
    && (forall i :: 0 <= i < |w| ==>
          w[i].0 in v && w[i].0 !in pending && v[w[i].0].dirty && v[w[i].0].delta == Some(w[i].1))
    && NamesOf(w) == DirtyNames(v) - pending
  }

  /**
   `get_for_signal_type` over a view in which every requested name is loaded:
   exactly the requested, non-empty collaborations whose conversion to `t` is
   non-empty, each mapped to that conversion.
   */
  ghost predicate IsSelection<V, C, T, M>(v: View<V, C>, names: seq<string>, t: T,
                                            convert: Converter<V, T, M>, ret: map<string, map<string, M>>)
    requires forall n :: n in names ==> n in v
  {
    && (forall n :: n in ret ==> n in names && v[n].delta.Some?
                                 && ret[n] == Project(convert, t, n, v[n].delta.value.updates))
    && (forall n :: n in names && v[n].delta.Some? && |Project(convert, t, n, v[n].delta.value.updates)| > 0
                    ==> n in ret)
    && (forall n :: n in ret ==> |ret[n]| > 0)
  }

  class SimpleFetchedStateStore<V, C(==), T(==), M> {
    /** The exchange's `naive_fetch_merge`, shared with every tracker. */
    const merge: MergeFn<V>
    /** The exchange's `naive_convert_to_signal_type`. */
    const convert: Converter<V, T, M>
    /** The `_read_state` hook. */
    const readState: string -> Option<FetchDelta<V, C>>
    /** `_state`: collaboration name -> its tracker. */
    var state: map<string, StateTracker<V, C>>
    /** Every `_write_state(name, delta)` call so far, in order. */
    var written: seq<(string, FetchDelta<V, C>)>

    /**
     Every tracker shares the store's merge function, no tracker is shared by
     two names, and a dirty tracker always holds a delta (what `flush`
     asserts).
     */
    ghost predicate Valid()
      reads this, state.Values
    {
      && (forall n :: n in state ==> state[n].merge == merge)
      && (forall n :: n in state ==> state[n].dirty ==> state[n].delta.Some?)
      && (forall n, m :: n in state && m in state && n != m ==> state[n] != state[m])
    }

    ghost function View(): View<V, C>
      reads this, state.Values
    {
      map n | n in state :: Tracked(state[n].delta, state[n].dirty)
    }

    constructor (merge: MergeFn<V>, convert: Converter<V, T, M>, readState: string -> Option<FetchDelta<V, C>>)
      ensures Valid() && View() == map[] && written == []
      ensures this.merge == merge && this.convert == convert && this.readState == readState
    {
      this.merge := merge;
      this.convert := convert;
      this.readState := readState;
      state := map[];
      written := [];
    }

    /**
     `_get_state`: the tracker of `name`, created from `_read_state` on first
     access and the same object on every later access.
     */
    method GetState(name: string) returns (t: StateTracker<V, C>)
      requires Valid()
      modifies this
      ensures Valid() && written == old(written)
      ensures name in state && t == state[name]
      ensures old(name in state) ==> state == old(state)
      ensures old(name !in state) ==> fresh(t) && state == old(state)[name := t]
      ensures View() == Loaded(old(View()), name, readState)
    {
      if name !in state {
        var loaded := readState(name);
        t := new StateTracker(merge, loaded);
        state := state[name := t];
      }
      t := state[name];
    }

    /** `get_checkpoint`: the checkpoint of the (possibly just loaded) tracker. */
    method GetCheckpoint(name: string) returns (cp: Option<C>)
      requires Valid()
      modifies this
      ensures Valid() && written == old(written)
      ensures state.Keys == old(state).Keys + {name}
      ensures forall n :: n in old(state) ==> n in state && state[n] == old(state)[n]
      ensures forall n :: n in state && n !in old(state) ==> fresh(state[n])
      ensures View() == Loaded(old(View()), name, readState)
      ensures cp == CheckpointOf(View()[name].delta)
    {
      var t := GetState(name);
      cp := t.Checkpoint();
    }

    /** `clear`: forget the in-memory tracker of `name` only. */
    method Clear(name: string)
      requires Valid()
      modifies this
      ensures Valid() && written == old(written)
      ensures state == old(state) - {name}
      ensures View() == old(View()) - {name}
    {
      state := state - {name};
    }

    /** `merge`: skip a no-op delta, otherwise set it on the collaboration's tracker. */
    method Merge(name: string, d: FetchDelta<V, C>)
      requires Valid()
      modifies this, state.Values
      ensures Valid() && written == old(written)
      ensures forall n :: n in old(state) ==> n in state && state[n] == old(state)[n]
      ensures forall n :: n in state && n !in old(state) ==> fresh(state[n])
      ensures View() == Merged(old(View()), name, d, readState, merge)
    {
      var t := GetState(name);
      ghost var loaded := View();
      ghost var trackers := state;
      assert forall n :: n in old(state) ==> n in trackers && trackers[n] == old(state)[n];
      assert forall n :: n in trackers && n !in old(state) ==> fresh(trackers[n]);
      if |d.updates| == 0 && (d.checkpoint == None || d.checkpoint == t.Checkpoint()) {
        return;
      }
      t.SetDelta(d);
      assert state == trackers;
      assert View() == loaded[name := Tracked(Some(Absorb(loaded[name].delta, d, merge)), true)];
    }

    /**
     `flush`: every dirty tracker, of every collaboration (the argument is not
     used), is written once through `_write_state` and marked clean.
     */
    method Flush(collab: string)
      requires Valid()
      modifies this, state.Values
      ensures Valid() && state == old(state)
      ensures View() == Flushed(old(View()))
      ensures |old(written)| <= |written| && written[..|old(written)|] == old(written)
      ensures IsFlushLog(old(View()), written[|old(written)|..])
    {
      ghost var v0 := View();
      ghost var w: seq<(string, FetchDelta<V, C>)> := [];
      var pending := state.Keys;
      while pending != {}
        invariant pending <= state.Keys && state == old(state) && Valid()
        invariant View() == PartlyFlushed(v0, pending)
        invariant written == old(written) + w
        invariant IsPartialFlushLog(v0, pending, w)
        decreases pending
      {
        var name :| name in pending;
        FlushStep(v0, pending, w, name);
        w := w + FlushWrite(v0, name);
        FlushOne(name);
        pending := pending - {name};
      }
      assert written[|old(written)|..] == w;
    }

    /** One turn of the `flush` loop: write the tracker of `name` if it is dirty, and mark it clean. */
    method FlushOne(name: string)
      requires Valid() && name in state
      modifies this`written, state[name]
      ensures Valid() && state == old(state)
      ensures View() == old(View())[name := old(View())[name].(dirty := false)]
      ensures written == old(written) + FlushWrite(old(View()), name)
    {
      var t := state[name];
      if t.dirty {
        var d := t.Delta();
        written := written + [(name, d)];
        t.dirty := false;
      }
      assert forall n :: n in state && n != name ==> state[n] != t;
    }

    /**
     `get_for_signal_type`: load every requested collaboration and keep the
     non-empty ones whose conversion to `t` is non-empty.
     */
    method GetForSignalType(collabs: seq<string>, t: T) returns (ret: map<string, map<string, M>>)
      requires Valid()
      modifies this
      ensures Valid() && written == old(written)
      ensures forall n :: n in old(state) ==> n in state && state[n] == old(state)[n]
      ensures forall n :: n in state && n !in old(state) ==> fresh(state[n])
      ensures View() == LoadedAll(old(View()), collabs, readState)
      ensures forall n :: n in collabs ==> n in View()
      ensures IsSelection(View(), collabs, t, convert, ret)
    {
      ret := map[];
      var i := 0;
      while i < |collabs|
        invariant 0 <= i <= |collabs|
        invariant Valid() && written == old(written)
        invariant forall n :: n in old(state) ==> n in state && state[n] == old(state)[n]
        invariant forall n :: n in state && n !in old(state) ==> fresh(state[n])
        invariant View() == LoadedAll(old(View()), collabs[..i], readState)
        invariant forall n :: n in collabs[..i] ==> n in View()
        invariant IsSelection(View(), collabs[..i], t, convert, ret)
      {
        var name := collabs[i];
        ghost var before := View();
        ghost var prior := ret;
        ret := SelectOne(name, t, ret);
        assert collabs[..i + 1] == collabs[..i] + [name];
        LoadedAllSnoc(old(View()), collabs[..i], name, readState);
        SelectionStep(before, collabs[..i], name, t, convert, readState, prior, ret);
        i := i + 1;
      }
      assert collabs[..i] == collabs;
    }

    /** One turn of the `get_for_signal_type` loop: load `name` and add its conversion if non-empty. */
    method SelectOne(name: string, t: T, ret: map<string, map<string, M>>) returns (ret': map<string, map<string, M>>)
      requires Valid()
      modifies this
      ensures Valid() && written == old(written)
      ensures state.Keys == old(state).Keys + {name}
      ensures forall n :: n in old(state) ==> n in state && state[n] == old(state)[n]
      ensures forall n :: n in state && n !in old(state) ==> fresh(state[n])
      ensures View() == Loaded(old(View()), name, readState)
      ensures var u := View()[name];
              ret' == if u.delta.Some? && |Project(convert, t, name, u.delta.value.updates)| > 0
                      then ret[name := Project(convert, t, name, u.delta.value.updates)] else ret
    {
      ret' := ret;
      var tracker := GetState(name);
      if !tracker.Empty() {
        var bySignal := Project(convert, t, name, tracker.Delta().updates);
        if |bySignal| > 0 {
          ret' := ret[name := bySignal];
        }
      }
    }
  }

  lemma NamesOfSnoc<D>(w: seq<(string, D)>, name: string, d: D)
    ensures NamesOf(w + [(name, d)]) == NamesOf(w) + {name}
  {
    var w' := w + [(name, d)];
    assert forall i :: 0 <= i < |w| ==> w'[i] == w[i];
    assert w'[|w|].0 == name;
  }

  /** Visiting one more name keeps the partial write log and the partly flushed trackers in step. */
  lemma FlushStep<V, C>(v: View<V, C>, pending: set<string>, w: seq<(string, FetchDelta<V, C>)>, name: string)
    requires name in pending && pending <= v.Keys
    requires forall n :: n in v && v[n].dirty ==> v[n].delta.Some?
    requires IsPartialFlushLog(v, pending, w)
    ensures IsPartialFlushLog(v, pending - {name}, w + FlushWrite(v, name))
    ensures PartlyFlushed(v, pending)[name := PartlyFlushed(v, pending)[name].(dirty := false)]
            == PartlyFlushed(v, pending - {name})
  {
    if v[name].dirty && v[name].delta.Some? {
      NamesOfSnoc(w, name, v[name].delta.value);
    } else {
      assert w + FlushWrite(v, name) == w;
      assert DirtyNames(v) - (pending - {name}) == DirtyNames(v) - pending;
    }
  }

  /** Loading one more name extends the loads of the names before it. */
  lemma LoadedAllSnoc<V, C>(v: View<V, C>, names: seq<string>, name: string, read: string -> Option<FetchDelta<V, C>>)
    ensures Loaded(LoadedAll(v, names, read), name, read) == LoadedAll(v, names + [name], read)
  {
    assert (set m | m in names + [name]) == (set m | m in names) + {name};
  }

  /** One turn of the `get_for_signal_type` loop keeps `ret` the selection of the names seen so far. */
  lemma SelectionStep<V, C, T, M>(v: View<V, C>, names: seq<string>, name: string, t: T, convert: Converter<V, T, M>,
                                  read: string -> Option<FetchDelta<V, C>>, ret: map<string, map<string, M>>,
                                  ret': map<string, map<string, M>>)
    requires forall n :: n in names ==> n in v
    requires IsSelection(v, names, t, convert, ret)
    requires var u := Loaded(v, name, read)[name];
             ret' == if u.delta.Some? && |Project(convert, t, name, u.delta.value.updates)| > 0
                     then ret[name := Project(convert, t, name, u.delta.value.updates)] else ret
    ensures forall n :: n in names + [name] ==> n in Loaded(v, name, read)
    ensures IsSelection(Loaded(v, name, read), names + [name], t, convert, ret')
  {
  }

  // Properties of the in-memory store, stated on the functions its methods follow.

  /**
   `_get_state` inserts only an absent name, as a clean tracker holding the
   `_read_state` result; a second access changes nothing more.
   */
  lemma GetStateLoadsOnce<V, C>(v: View<V, C>, name: string, read: string -> Option<FetchDelta<V, C>>)
    ensures Loaded(v, name, read).Keys == v.Keys + {name}
    ensures Loaded(v, name, read)[name] == if name in v then v[name] else Tracked(read(name), false)
    ensures forall n :: n in v ==> Loaded(v, name, read)[n] == v[n]
    ensures Loaded(Loaded(v, name, read), name, read) == Loaded(v, name, read)
  {
  }

  /** `clear` drops only `name`; its next access reloads it from `_read_state`. */
  lemma ClearThenReload<V, C>(v: View<V, C>, name: string, read: string -> Option<FetchDelta<V, C>>)
    ensures name !in v - {name}
    ensures Loaded(v - {name}, name, read)[name] == Tracked(read(name), false)
    ensures forall n :: n in v && n != name ==> n in v - {name} && (v - {name})[n] == v[n]
  {
  }

  /**
   A no-op delta (no updates, and no checkpoint or the tracker's own) only
   loads the tracker: an unloaded name gets its clean tracker from
   `_read_state`, and a loaded one keeps its updates, checkpoint and dirty flag.
   */
  lemma NoOpMergeChangesNothing<V, C>(v: View<V, C>, name: string, d: FetchDelta<V, C>,
                                         read: string -> Option<FetchDelta<V, C>>, merge: MergeFn<V>)
    requires IsNoOp(d, CheckpointOf(Loaded(v, name, read)[name].delta))
    ensures Merged(v, name, d, read, merge) == Loaded(v, name, read)
    ensures name in v ==> Merged(v, name, d, read, merge) == v
    ensures name !in v ==> Merged(v, name, d, read, merge) == v[name := Tracked(read(name), false)]
  {
  }

  /**
   A delta with updates but no checkpoint goes through the setter, so the
   tracker is not empty yet its checkpoint is none: `checkpoint` is none
   exactly when the tracker is empty only if every delta carries a checkpoint.
   */
  lemma MergeWithoutCheckpoint<V, C>(r: V, read: string -> Option<FetchDelta<V, C>>, merge: MergeFn<V>)
    ensures var v := Merged(map[], "a", FetchDelta(map["k" := r], None), read, merge);
            "a" in v && v["a"].delta.Some? && CheckpointOf(v["a"].delta) == None
  {
    assert |map["k" := r]| > 0 by { assert "k" in map["k" := r]; }
  }

  /**
   Any other delta goes through the tracker's setter: merged updates, the
   delta's checkpoint, dirty; the other trackers are untouched.
   */
  lemma MergeSetsTracker<V, C>(v: View<V, C>, name: string, d: FetchDelta<V, C>,
                                  read: string -> Option<FetchDelta<V, C>>, merge: MergeFn<V>)
    requires !IsNoOp(d, CheckpointOf(Loaded(v, name, read)[name].delta))
    ensures var prior := Loaded(v, name, read)[name].delta;
            Merged(v, name, d, read, merge)[name]
            == Tracked(Some(FetchDelta(merge(PriorUpdates(prior), d.updates), d.checkpoint)), true)
    ensures CheckpointOf(Merged(v, name, d, read, merge)[name].delta) == d.checkpoint
    ensures forall n :: n in v && n != name ==> Merged(v, name, d, read, merge)[n] == v[n]
  {
  }

  /**
   No delta of `ds` is a no-op when it is merged: each one is judged against
   the checkpoint the delta before it left (`start` for the first).
   */
  predicate NoneSkipped<V, C(==)>(start: Option<C>, ds: seq<FetchDelta<V, C>>)
  {
    && (ds != [] ==> !IsNoOp(ds[0], start))
    && (forall i :: 0 < i < |ds| ==> !IsNoOp(ds[i], ds[i - 1].checkpoint))
  }

  /** Dropping the first delta of a stream none of whose deltas is skipped. */
  lemma NoneSkippedTail<V, C>(start: Option<C>, ds: seq<FetchDelta<V, C>>)
    requires ds != [] && NoneSkipped(start, ds)
    ensures NoneSkipped(ds[0].checkpoint, ds[1..])
  {
    if |ds| > 1 {
      assert !IsNoOp(ds[1], ds[0].checkpoint);
    }
    forall i | 0 < i < |ds[1..]|
      ensures !IsNoOp(ds[1..][i], ds[1..][i - 1].checkpoint)
    {
      assert !IsNoOp(ds[i + 1], ds[i].checkpoint);
    }
  }

  /**
   Merging a stream of deltas none of which is a no-op when it arrives sets
   each of them on the tracker in turn; the other trackers are untouched.
   */
  lemma {:induction false} MergedAllAccumulates<V, C>(v: View<V, C>, name: string, ds: seq<FetchDelta<V, C>>,
                                                          read: string -> Option<FetchDelta<V, C>>, merge: MergeFn<V>)
    requires ds != [] && NoneSkipped(CheckpointOf(Loaded(v, name, read)[name].delta), ds)
    ensures name in MergedAll(v, name, ds, read, merge)
    ensures MergedAll(v, name, ds, read, merge)[name].delta == Accumulate(Loaded(v, name, read)[name].delta, ds, merge)
    ensures MergedAll(v, name, ds, read, merge)[name].dirty
    ensures forall n :: n in v && n != name ==>
              n in MergedAll(v, name, ds, read, merge) && MergedAll(v, name, ds, read, merge)[n] == v[n]
    decreases |ds|
  {
    var v1 := Merged(v, name, ds[0], read, merge);
    assert !IsNoOp(ds[0], CheckpointOf(Loaded(v, name, read)[name].delta));
    if |ds| > 1 {
      assert Loaded(v1, name, read) == v1;
      NoneSkippedTail(CheckpointOf(Loaded(v, name, read)[name].delta), ds);
      MergedAllAccumulates(v1, name, ds[1..], read, merge);
    }
  }

  /**
   The accumulated state after merging `ds` (none of them skipped as a
   no-op) is the left fold of their update maps with the merge function, and
   the checkpoint is the last delta's.
   */
  lemma MergedAllMatchesFold<V, C>(v: View<V, C>, name: string, ds: seq<FetchDelta<V, C>>,
                                       read: string -> Option<FetchDelta<V, C>>, merge: MergeFn<V>)
    requires ds != [] && NoneSkipped(CheckpointOf(Loaded(v, name, read)[name].delta), ds)
    ensures name in MergedAll(v, name, ds, read, merge)
    ensures var prior := Loaded(v, name, read)[name].delta;
            MergedAll(v, name, ds, read, merge)[name]
            == Tracked(Some(FetchDelta(FoldMerge(PriorUpdates(prior), ds, merge), ds[|ds| - 1].checkpoint)), true)
  {
    MergedAllAccumulates(v, name, ds, read, merge);
    AccumulateIsFold(Loaded(v, name, read)[name].delta, ds, merge);
  }

  /** After `flush` every tracker is clean and keeps its delta. */
  lemma FlushedIsClean<V, C>(v: View<V, C>)
    ensures Flushed(v).Keys == v.Keys && DirtyNames(Flushed(v)) == {}
    ensures forall n :: n in v ==> Flushed(v)[n].delta == v[n].delta
    ensures Flushed(Flushed(v)) == Flushed(v)
  {
  }

  /** A sequence of calls naming no collaboration twice has as many names as calls. */
  lemma {:induction false} DistinctNamesCount<D>(w: seq<(string, D)>)
    requires DistinctNames(w)
    ensures |NamesOf(w)| == |w|
    decreases |w|
  {
    if w != [] {
      var init := w[..|w| - 1];
      var last := w[|w| - 1];
      assert w == init + [last];
      assert DistinctNames(init);
      DistinctNamesCount(init);
      NamesOfSnoc(init, last.0, last.1);
      assert last.0 !in NamesOf(init);
    }
  }

  /** `flush` calls `_write_state` exactly as many times as there are dirty trackers. */
  lemma FlushWritesEachDirtyOnce<V, C>(v: View<V, C>, w: seq<(string, FetchDelta<V, C>)>)
    requires IsFlushLog(v, w)
    ensures |w| == |DirtyNames(v)|
    ensures forall n :: n in v ==> (v[n].dirty <==> exists i :: 0 <= i < |w| && w[i].0 == n)
  {
    DistinctNamesCount(w);
    forall n | n in v && v[n].dirty
      ensures exists i :: 0 <= i < |w| && w[i].0 == n
    {
      assert n in NamesOf(w);
    }
  }

  /** A second `flush` right after one writes nothing. */
  lemma SecondFlushWritesNothing<V, C>(v: View<V, C>, w: seq<(string, FetchDelta<V, C>)>)
    requires IsFlushLog(Flushed(v), w)
    ensures w == []
  {
    FlushedIsClean(v);
    FlushWritesEachDirtyOnce(Flushed(v), w);
  }
}
