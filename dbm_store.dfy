/**
 `DBMFetchedStateStore`: a store kept in durable key/value namespaces with a
 two-phase checkpoint. Collaboration `name` owns the data namespace `name`
 (record id -> record) and the checkpoint namespace `name_checkpoint`, whose
 key `_checkpoint` holds the staged checkpoint and `checkpoint` the committed
 one. `merge` writes records at once and only stages the checkpoint; `flush`
 commits it; `get_checkpoint` reads the committed key alone.

 The key/value engine is the class `DbmStorage`: a map from namespace name
 to that namespace's entries, with `set` and `drop` as methods and `get`,
 iteration and `exists` as functions of the map.
 */
module DbmStore {
  import opened FetchState

  /**
   A stored value. The engine stores any value: records in data namespaces,
   checkpoints (or a stored `None`) in checkpoint namespaces. `Null` is also
   what `get` returns for a missing key.
   */
  datatype Value<V, C> = Null | Record(record: V) | Checkpoint(cp: C)

  type Namespaces<V, C> = map<string, map<string, Value<V, C>>>

  /** Iterating over a namespace: its entries, none for a namespace never written. */
  function Items<V, C>(s: Namespaces<V, C>, ns: string): map<string, Value<V, C>>
  {
    if ns in s then s[ns] else map[]
  }

  /** `get(key)` on namespace `ns`: the stored value, `Null` when the key is missing. */
  function Lookup<V, C>(s: Namespaces<V, C>, ns: string, key: string): Value<V, C>
  {
    var items := Items(s, ns);
    if key in items then items[key] else Null
  }

  /** `set(key, x)` on namespace `ns`, which it creates if needed. */
  function Stored<V, C>(s: Namespaces<V, C>, ns: string, key: string, x: Value<V, C>): Namespaces<V, C>
  {
    s[ns := Items(s, ns)[key := x]]
  }

  /** The durable key/value engine shared by every store. */
  class DbmStorage<V, C> {
    var namespaces: Namespaces<V, C>

    constructor (namespaces: Namespaces<V, C>)
      ensures this.namespaces == namespaces
    {
      this.namespaces := namespaces;
    }

    /** `set(key, x)` on namespace `ns`. */
    method Set(ns: string, key: string, x: Value<V, C>)
      modifies this
      ensures namespaces == Stored(old(namespaces), ns, key, x)
    {
      namespaces := Stored(namespaces, ns, key, x);
    }

    /** `drop()` of namespace `ns`. */
    method Drop(ns: string)
      modifies this
      ensures namespaces == old(namespaces) - {ns}
    {
      namespaces := namespaces - {ns};
    }
  }

  const CommittedKey := "checkpoint"
  const StagedKey := "_checkpoint"

  function CheckpointNamespace(name: string): string
  {
    name + "_checkpoint"
  }

  /** What `get_checkpoint` reports: the committed key. */
  function Committed<V, C>(s: Namespaces<V, C>, name: string): Value<V, C>
  {
    Lookup(s, CheckpointNamespace(name), CommittedKey)
  }

  /** The checkpoint staged by the last `merge` that was not a no-op. */
  function Staged<V, C>(s: Namespaces<V, C>, name: string): Value<V, C>
  {
    Lookup(s, CheckpointNamespace(name), StagedKey)
  }

  /** A delta's checkpoint as it is stored. */
  function ToValue<V, C>(cp: Option<C>): Value<V, C>
  {
    if cp.None? then Null else Checkpoint(cp.value)
  }

  /**
   A stored value as the no-op test compares it: a stored checkpoint is that
   checkpoint; anything else equals no checkpoint the delta can carry.
   */
  function AsCheckpoint<V, C>(x: Value<V, C>): Option<C>
  {
    if x.Checkpoint? then Some(x.cp) else None
  }

  /** Updates as the engine stores them: each record wrapped as a stored value. */
  function AsRecords<V, C>(u: map<string, V>): map<string, Value<V, C>>
  {
    map k | k in u :: Record(u[k])
  }

  /** The `db.set(k, v)` loop of `merge`: every update written as it is. */
  function WriteUpdates<V, C>(s: Namespaces<V, C>, ns: string, u: map<string, V>): Namespaces<V, C>
  {
    if |u| == 0 then s else s[ns := Items(s, ns) + AsRecords(u)]
  }

  /**
   `merge`: a no-op (judged against the committed checkpoint) writes nothing;
   otherwise the updates go to the data namespace and the checkpoint is staged.
   */
  function DbmMerged<V, C(==)>(s: Namespaces<V, C>, name: string, d: FetchDelta<V, C>): Namespaces<V, C>
  {
    if IsNoOp(d, AsCheckpoint(Committed(s, name))) then s
    else Stored(WriteUpdates(s, name, d.updates), CheckpointNamespace(name), StagedKey, ToValue(d.checkpoint))
  }

  /** `merge` applied to every delta of `ds`, in order, for one collaboration. */
  function DbmMergedAll<V, C(==)>(s: Namespaces<V, C>, name: string, ds: seq<FetchDelta<V, C>>): Namespaces<V, C>
    decreases |ds|
  {
    if ds == [] then s else DbmMergedAll(DbmMerged(s, name, ds[0]), name, ds[1..])
  }

  /** `flush`: copy the staged checkpoint (`Null` if none) over the committed one. */
  function DbmFlushed<V, C>(s: Namespaces<V, C>, name: string): Namespaces<V, C>
  {
    Stored(s, CheckpointNamespace(name), CommittedKey, Staged(s, name))
  }

  class DbmFetchedStateStore<V, C(==), T(==), M> {
    /** The engine behind every `DBMStorage().connect(...)`. */
    const storage: DbmStorage<V, C>
    /** The exchange's `naive_convert_to_signal_type`, applied to stored values. */
    const convert: Converter<Value<V, C>, T, M>

    constructor (storage: DbmStorage<V, C>, convert: Converter<Value<V, C>, T, M>)
      ensures this.storage == storage && this.convert == convert
    {
      this.storage := storage;
      this.convert := convert;
    }

    /** `merge`: write every update, then stage the checkpoint, unless the delta is a no-op. */
    method Merge(name: string, d: FetchDelta<V, C>)
      modifies storage
      ensures storage.namespaces == DbmMerged(old(storage.namespaces), name, d)
    {
      var committed := Lookup(storage.namespaces, CheckpointNamespace(name), CommittedKey);
      if |d.updates| == 0 && (d.checkpoint == None || d.checkpoint == AsCheckpoint(committed)) {
        return;
      }
      var pending := d.updates.Keys;
      while pending != {}
        invariant pending <= d.updates.Keys
        invariant storage.namespaces == WriteUpdates(old(storage.namespaces), name, d.updates - pending)
        decreases pending
      {
        var k :| k in pending;
        WriteOneMore(old(storage.namespaces), name, d.updates, pending, k);
        storage.Set(name, k, Record(d.updates[k]));
        pending := pending - {k};
      }
      assert d.updates - {} == d.updates;
      storage.Set(CheckpointNamespace(name), StagedKey, ToValue(d.checkpoint));
    }

    /** `flush`: commit the staged checkpoint, unconditionally. */
    method Flush(name: string)
      modifies storage
      ensures storage.namespaces == DbmFlushed(old(storage.namespaces), name)
    {
      var staged := Lookup(storage.namespaces, CheckpointNamespace(name), StagedKey);
      storage.Set(CheckpointNamespace(name), CommittedKey, staged);
    }

    /** `get_checkpoint`: the committed checkpoint only; a staged one is not seen. */
    method GetCheckpoint(name: string) returns (cp: Value<V, C>)
      ensures cp == Committed(storage.namespaces, name)
    {
      cp := Lookup(storage.namespaces, CheckpointNamespace(name), CommittedKey);
    }

    /** `clear`: drop the data namespace; the checkpoint namespace stays. */
    method Clear(name: string)
      modifies storage
      ensures storage.namespaces == old(storage.namespaces) - {name}
    {
      storage.Drop(name);
    }

    /** `exists`: whether the data namespace exists. */
    method Exists(name: string) returns (b: bool)
      ensures b <==> name in storage.namespaces
    {
      b := name in storage.namespaces;
    }

    /**
     `get_for_signal_type`: for every requested collaboration, convert all its
     stored records and keep the non-empty conversions.
     */
    method GetForSignalType(collabs: seq<string>, t: T) returns (ret: map<string, map<string, M>>)
      ensures forall n :: n in ret ==> n in collabs
      ensures forall n :: n in ret ==> ret[n] == Project(convert, t, n, Items(storage.namespaces, n)) && |ret[n]| > 0
      ensures forall n :: n in collabs && |Project(convert, t, n, Items(storage.namespaces, n))| > 0 ==> n in ret
    {
      ret := map[];
      for i := 0 to |collabs|
        invariant forall n :: n in ret ==> n in collabs[..i]
        invariant forall n :: n in ret ==> ret[n] == Project(convert, t, n, Items(storage.namespaces, n)) && |ret[n]| > 0
        invariant forall n :: n in collabs[..i] && |Project(convert, t, n, Items(storage.namespaces, n))| > 0 ==> n in ret
      {
        var name := collabs[i];
        var data := Items(storage.namespaces, name);
        var bySignal := Project(convert, t, name, data);
        if |bySignal| > 0 {
          ret := ret[name := bySignal];
        }
        assert collabs[..i + 1] == collabs[..i] + [name];
      }
      assert collabs[..|collabs|] == collabs;
    }
  }

  /** One turn of the `merge` loop writes one more update. */
  lemma WriteOneMore<V, C>(s: Namespaces<V, C>, ns: string, u: map<string, V>, pending: set<string>, k: string)
    requires k in pending && pending <= u.Keys
    ensures Stored(WriteUpdates(s, ns, u - pending), ns, k, Record(u[k])) == WriteUpdates(s, ns, u - (pending - {k}))
  {
    var done := u - pending;
    var done' := u - (pending - {k});
    assert done' == done[k := u[k]];
    WriteOneMoreKey(s, ns, done, k, u[k]);
  }

  lemma WriteOneMoreKey<V, C>(s: Namespaces<V, C>, ns: string, done: map<string, V>, k: string, x: V)
    ensures Stored(WriteUpdates(s, ns, done), ns, k, Record(x)) == WriteUpdates(s, ns, done[k := x])
  {
    var base := Items(s, ns);
    var inner := if |done| == 0 then base else base + AsRecords(done);
    assert Items(WriteUpdates(s, ns, done), ns) == inner;
    AddRecord(base, done, k, x);
    assert |done[k := x]| > 0 by { assert k in done[k := x]; }
  }

  lemma AddRecord<V, C>(base: map<string, Value<V, C>>, done: map<string, V>, k: string, x: V)
    ensures (if |done| == 0 then base else base + AsRecords(done))[k := Record(x)] == base + AsRecords(done[k := x])
  {
    AsRecordsUpdate<V, C>(done, k, x);
    if |done| == 0 {
      assert done == map[];
      assert AsRecords<V, C>(done) == map[];
    }
  }

  lemma AsRecordsUpdate<V, C>(u: map<string, V>, k: string, x: V)
    ensures AsRecords<V, C>(u[k := x]) == AsRecords<V, C>(u)[k := Record(x)]
  {
  }

  // Properties of the two-phase store, stated on the functions its methods follow.

  /** A collaboration's two namespaces are distinct, as are the two checkpoint keys. */
  lemma OwnNamespacesDistinct(name: string)
    ensures CheckpointNamespace(name) != name
    ensures CommittedKey != StagedKey
  {
    assert |CheckpointNamespace(name)| == |name| + 11;
  }

  /** A no-op delta, judged against the committed checkpoint, writes nothing. */
  lemma NoOpMergeWritesNothing<V, C>(s: Namespaces<V, C>, name: string, d: FetchDelta<V, C>)
    requires |d.updates| == 0
    requires d.checkpoint == None || d.checkpoint == AsCheckpoint(Committed(s, name))
    ensures DbmMerged(s, name, d) == s
  {
  }

  /**
   Any other delta writes every update into the data namespace, keeps the
   records it does not mention, stages its checkpoint and leaves the
   committed checkpoint, so `get_checkpoint` still reports the old one.
   */
  lemma MergeWritesAndStages<V, C>(s: Namespaces<V, C>, name: string, d: FetchDelta<V, C>)
    requires !IsNoOp(d, AsCheckpoint(Committed(s, name)))
    ensures forall k :: k in d.updates ==> Lookup(DbmMerged(s, name, d), name, k) == Record(d.updates[k])
    ensures forall k :: k !in d.updates ==> Lookup(DbmMerged(s, name, d), name, k) == Lookup(s, name, k)
    ensures Staged(DbmMerged(s, name, d), name) == ToValue(d.checkpoint)
    ensures Committed(DbmMerged(s, name, d), name) == Committed(s, name)
  {
    OwnNamespacesDistinct(name);
    var w := WriteUpdates(s, name, d.updates);
    assert Committed(w, name) == Committed(s, name);
    forall k | k in d.updates
      ensures Lookup(DbmMerged(s, name, d), name, k) == Record(d.updates[k])
    {
      assert Items(w, name) == Items(s, name) + AsRecords(d.updates);
    }
  }

  /** `flush` after a merge that was not a no-op commits that merge's checkpoint. */
  lemma MergeThenFlushCommits<V, C>(s: Namespaces<V, C>, name: string, d: FetchDelta<V, C>)
    requires !IsNoOp(d, AsCheckpoint(Committed(s, name)))
    ensures Committed(DbmFlushed(DbmMerged(s, name, d), name), name) == ToValue(d.checkpoint)
    ensures AsCheckpoint(Committed(DbmFlushed(DbmMerged(s, name, d), name), name)) == d.checkpoint
    ensures Items(DbmFlushed(DbmMerged(s, name, d), name), name) == Items(DbmMerged(s, name, d), name)
  {
    MergeWritesAndStages(s, name, d);
    OwnNamespacesDistinct(name);
  }

  /**
   `flush` commits whatever is staged with no dirty check: it always writes
   the checkpoint namespace, committing `Null` when nothing was staged.
   */
  lemma FlushAlwaysWrites<V, C>(s: Namespaces<V, C>, name: string)
    ensures CheckpointNamespace(name) in DbmFlushed(s, name)
    ensures Committed(DbmFlushed(s, name), name) == Staged(s, name)
    ensures Staged(DbmFlushed(s, name), name) == Staged(s, name)
    ensures Staged(s, name) == Null ==> Committed(DbmFlushed(s, name), name) == Null
  {
    OwnNamespacesDistinct(name);
  }

  /** Flushing twice leaves the same state as flushing once. */
  lemma FlushIdempotent<V, C>(s: Namespaces<V, C>, name: string)
    ensures DbmFlushed(DbmFlushed(s, name), name) == DbmFlushed(s, name)
  {
    FlushAlwaysWrites(s, name);
    var f := DbmFlushed(s, name);
    var ns := CheckpointNamespace(name);
    assert Items(f, ns)[CommittedKey := Staged(f, name)] == Items(f, ns);
  }

  /** `clear` drops the records and `exists` turns false, but both checkpoints survive. */
  lemma ClearKeepsCheckpoints<V, C>(s: Namespaces<V, C>, name: string)
    ensures name !in s - {name} && Items(s - {name}, name) == map[]
    ensures Committed(s - {name}, name) == Committed(s, name)
    ensures Staged(s - {name}, name) == Staged(s, name)
  {
    OwnNamespacesDistinct(name);
  }

  /**
   Two-phase commit: however many deltas are merged, the committed
   checkpoint that `get_checkpoint` reports stays what the last `flush` left.
   */
  lemma {:induction false} CommittedStableUntilFlush<V, C>(s: Namespaces<V, C>, name: string, ds: seq<FetchDelta<V, C>>)
    ensures Committed(DbmMergedAll(s, name, ds), name) == Committed(s, name)
    decreases |ds|
  {
    if ds != [] {
      if !IsNoOp(ds[0], AsCheckpoint(Committed(s, name))) {
        MergeWritesAndStages(s, name, ds[0]);
      }
      CommittedStableUntilFlush(DbmMerged(s, name, ds[0]), name, ds[1..]);
    }
  }

  /**
   After a stream of merges whose last delta is not a no-op, followed by a
   `flush`, `get_checkpoint` reports the last delta's checkpoint. (Every
   no-op test in the stream compares against the same committed value.)
   */
  lemma {:induction false} MergesThenFlushCommitLast<V, C>(s: Namespaces<V, C>, name: string, ds: seq<FetchDelta<V, C>>)
    requires ds != []
    requires !IsNoOp(ds[|ds| - 1], AsCheckpoint(Committed(s, name)))
    ensures Staged(DbmMergedAll(s, name, ds), name) == ToValue(ds[|ds| - 1].checkpoint)
    ensures Committed(DbmFlushed(DbmMergedAll(s, name, ds), name), name) == ToValue(ds[|ds| - 1].checkpoint)
    decreases |ds|
  {
    var s1 := DbmMerged(s, name, ds[0]);
    if !IsNoOp(ds[0], AsCheckpoint(Committed(s, name))) {
      MergeWritesAndStages(s, name, ds[0]);
    }
    assert Committed(s1, name) == Committed(s, name);
    if |ds| > 1 {
      MergesThenFlushCommitLast(s1, name, ds[1..]);
    }
    FlushAlwaysWrites(DbmMergedAll(s, name, ds), name);
  }

  /**
   The committed checkpoint is not always the last one passed to `merge`: a
   merge that only brings back the committed checkpoint is a no-op even when
   a different checkpoint is staged, so the next `flush` commits the staged
   one instead.
   */
  lemma RevertingMergeIsSkipped<V, C>(s: Namespaces<V, C>, name: string, k: string, r: V, c0: C, c1: C)
    requires Committed(s, name) == Checkpoint(c0) && c0 != c1
    ensures var ds := [FetchDelta(map[k := r], Some(c1)), FetchDelta(map[], Some(c0))];
            Committed(DbmFlushed(DbmMergedAll(s, name, ds), name), name) == Checkpoint(c1)
            && ds[|ds| - 1].checkpoint == Some(c0)
  {
    var d1 := FetchDelta(map[k := r], Some(c1));
    var d2: FetchDelta<V, C> := FetchDelta(map[], Some(c0));
    assert |d1.updates| > 0 by { assert k in d1.updates; }
    MergeWritesAndStages(s, name, d1);
    var s1 := DbmMerged(s, name, d1);
    assert IsNoOp(d2, AsCheckpoint(Committed(s1, name)));
    assert DbmMerged(s1, name, d2) == s1;
    assert DbmMergedAll(s1, name, [d2]) == s1 by {
      assert [d2][1..] == [];
    }
    assert DbmMergedAll(s, name, [d1, d2]) == s1 by {
      assert [d1, d2][1..] == [d2];
    }
    FlushAlwaysWrites(s1, name);
  }

  /**
   Namespace names are not separated: the checkpoint namespace of the
   collaboration `a` is the data namespace of the collaboration
   `a_checkpoint`, so a record with id `checkpoint` merged into the latter
   replaces what `get_checkpoint` reports for the former.
   */
  lemma CheckpointNamespaceAliasing<V, C>(s: Namespaces<V, C>, r: V, cp: Option<C>)
    ensures CheckpointNamespace("a") == "a_checkpoint"
    ensures Committed(DbmMerged(s, "a_checkpoint", FetchDelta(map["checkpoint" := r], cp)), "a") == Record(r)
  {
    var d := FetchDelta(map["checkpoint" := r], cp);
    assert |d.updates| > 0 by { assert "checkpoint" in d.updates; }
    MergeWritesAndStages(s, "a_checkpoint", d);
    AliasedName();
  }

  lemma AliasedName()
    ensures CheckpointNamespace("a") == "a_checkpoint"
  {
    var n := CheckpointNamespace("a");
    assert |n| == 12;
    assert forall i :: 0 <= i < 12 ==> n[i] == "a_checkpoint"[i];
  }
}
