# Fetched-state layer of python-threatexchange, in Dafny

This project models the fetched-state layer of `threatexchange/exchanges/helpers.py`
and proves properties of the model. The layer folds a stream of fetched deltas into
per-collaboration state and keeps a resumable checkpoint. A delta is a map from
record id to update record, plus the checkpoint reached after it. The layer has
three parts:

- `_StateTracker` (module `StateTracking`, class `StateTracker`). It holds an
  optional running delta and a dirty flag. Its `delta` setter merges the new
  updates into the running ones with the exchange's `naive_fetch_merge`, merging
  into `{}` the first time. The setter then replaces the checkpoint and sets
  `dirty`.
- `SimpleFetchedStateStore` (module `SimpleStore`). It keeps a dictionary from
  collaboration name to tracker, loads trackers lazily through `_read_state`,
  skips no-op deltas in `merge`, and writes every dirty tracker of every
  collaboration in `flush`. Its abstract value is `View()`, the delta and dirty
  flag of each loaded tracker. Each method states its new `View()` as a function
  of the old one (`Loaded`, `Merged`, `Flushed`, `LoadedAll`). The lemmas are
  stated on those functions.
- `DBMFetchedStateStore` (module `DbmStore`). It is a two-phase checkpoint store
  over a key/value engine. That engine is modelled as the class `DbmStorage`: a
  map from namespace name to entries. For collaboration `name`, `merge` writes
  each update, as the raw value, into namespace `name`. It also stages the
  checkpoint under `_checkpoint` in namespace `name_checkpoint`. `flush` copies
  `_checkpoint` to `checkpoint`, and `get_checkpoint` reads `checkpoint` only.

Shared values live in module `FetchState`: `FetchDelta`, the no-op test
`IsNoOp`, one setter step `Absorb`, and the fold of a stream of deltas
(`Accumulate`, `FoldMerge`). The exchange's `naive_fetch_merge` and
`naive_convert_to_signal_type` are function parameters: `MergeFn` and
`Converter`. Nothing is assumed about them.

Where the docstrings or the method names suggest otherwise, the model follows the code:

- The simple store's `flush` ignores its argument and writes all dirty trackers.
- The DBM `flush` always writes, with no dirty check. When nothing has been
  staged it commits `None` (`Null` here); see `FlushAlwaysWrites`. Flushing a clean
  collaboration therefore still performs a durable write.
- The DBM `merge` does not call `naive_fetch_merge`: each update overwrites the
  stored record.
- The DBM `merge` applies its no-op test against the committed checkpoint, not
  the staged one.
- So `get_checkpoint` after a `flush` is not always the last checkpoint passed to
  `merge`. Suppose the committed checkpoint is `c0`. A merge of one record with
  checkpoint `c1` is followed by a merge of no records with checkpoint `c0`. The
  second merge is skipped as a no-op, and the `flush` commits `c1`; see
  `RevertingMergeIsSkipped`. `MergesThenFlushCommitLast` therefore requires that
  the last delta is not a no-op.
- The DBM `clear` drops only the data namespace, so both checkpoints survive
  (`ClearKeepsCheckpoints`).
- Namespace names are not kept apart. The checkpoint namespace of collaboration
  `a` is the data namespace of collaboration `a_checkpoint`; see
  `CheckpointNamespaceAliasing`.

## Model

| member | source | states |
|---|---|---|
| `StateTracking.StateTracker.constructor` | python-threatexchange/threatexchange/exchanges/helpers.py:38-42 | a new tracker is clean and holds the loaded delta; it is `empty` exactly when that delta is absent, and its `checkpoint` follows the delta |
| `StateTracking.StateTracker.Delta` | python-threatexchange/threatexchange/exchanges/helpers.py:48-51 | the getter may only be read on a non-empty tracker, and it returns the held delta |
| `StateTracking.StateTracker.Empty` | python-threatexchange/threatexchange/exchanges/helpers.py:44-46 | an empty tracker reports no checkpoint and merges its first delta into `{}`; with the constructor and `CheckpointNoneIffEmpty`/`MergeWithoutCheckpoint`, empty exactly when no delta was loaded or set |
| `StateTracking.StateTracker.Checkpoint` | python-threatexchange/threatexchange/exchanges/helpers.py:65-67 | none for an empty tracker, the held delta's checkpoint otherwise, and a checkpoint is only ever reported by a non-empty tracker |
| `StateTracking.StateTracker.SetDelta` | python-threatexchange/threatexchange/exchanges/helpers.py:53-63 | afterwards the updates are `merge(previous updates or {}, value.updates)`, the checkpoint is `value.checkpoint`, and the tracker is non-empty and dirty |
| `FetchState.CheckpointNoneIffEmpty` | python-threatexchange/threatexchange/exchanges/helpers.py:44-67 | `checkpoint` is none exactly when the tracker is empty, provided deltas carry checkpoints; otherwise it is the held delta's checkpoint |
| `SimpleStore.MergeWithoutCheckpoint` | python-threatexchange/threatexchange/exchanges/helpers.py:44-67 | the proviso above is needed: merging a delta with updates and no checkpoint leaves a non-empty tracker whose checkpoint is none |
| `FetchState.AccumulateIsFold` | python-threatexchange/threatexchange/exchanges/helpers.py:53-63 | setting a non-empty stream of deltas gives the left fold of their update maps with the merge function, with the last delta's checkpoint |
| `SimpleStore.SimpleFetchedStateStore.constructor` | python-threatexchange/threatexchange/exchanges/helpers.py:75-80 | a new store has no trackers and has written nothing |
| `SimpleStore.SimpleFetchedStateStore.GetState` | python-threatexchange/threatexchange/exchanges/helpers.py:98-103 | an absent name gets a fresh clean tracker holding `_read_state(name)`; a present name returns its own tracker with the map unchanged; the invariant holds (no tracker shared by two names, dirty trackers hold a delta) |
| `SimpleStore.SimpleFetchedStateStore.GetCheckpoint` | python-threatexchange/threatexchange/exchanges/helpers.py:93-96 | loads the tracker if needed and returns its checkpoint, none for an empty tracker; every tracker already loaded stays the same object, and a newly loaded one is fresh |
| `SimpleStore.SimpleFetchedStateStore.Clear` | python-threatexchange/threatexchange/exchanges/helpers.py:105-106 | removes only that name's tracker; the other trackers are unchanged |
| `SimpleStore.SimpleFetchedStateStore.Merge` | python-threatexchange/threatexchange/exchanges/helpers.py:108-127 | the trackers become `Merged(old trackers, name, delta)`: loaded, then unchanged for a no-op delta or set through the setter otherwise; every tracker already loaded stays the same object, and a newly loaded one is fresh |
| `SimpleStore.SimpleFetchedStateStore.Flush` | python-threatexchange/threatexchange/exchanges/helpers.py:129-134 | every tracker of every collaboration ends clean with its delta kept; the new `_write_state` calls are one per tracker that was dirty, with its delta, and none for clean ones |
| `SimpleStore.SimpleFetchedStateStore.FlushOne` | python-threatexchange/threatexchange/exchanges/helpers.py:131-134 | one tracker is written if dirty, and is then clean; nothing else changes |
| `SimpleStore.SimpleFetchedStateStore.GetForSignalType` | python-threatexchange/threatexchange/exchanges/helpers.py:136-148 | loads every requested name; the result holds exactly the requested names whose tracker is non-empty and whose conversion to the signal type is non-empty, each mapped to that conversion; every tracker already loaded stays the same object, and newly loaded ones are fresh |
| `SimpleStore.SimpleFetchedStateStore.SelectOne` | python-threatexchange/threatexchange/exchanges/helpers.py:141-147 | one collaboration is loaded and its conversion is added only when the tracker is non-empty and the conversion is non-empty; loaded trackers keep their identity |
| `SimpleStore.GetStateLoadsOnce` | python-threatexchange/threatexchange/exchanges/helpers.py:98-103 | loading adds only the name itself, as `_read_state`'s clean tracker when absent; other trackers are kept; loading again changes nothing |
| `SimpleStore.ClearThenReload` | python-threatexchange/threatexchange/exchanges/helpers.py:98-106 | after `clear` the name is gone, the next access reloads it from `_read_state`, and the other trackers are as before |
| `SimpleStore.NoOpMergeChangesNothing` | python-threatexchange/threatexchange/exchanges/helpers.py:120-126 | a delta with no updates and a checkpoint that is none or equal to the (possibly just loaded) tracker's only loads the tracker: a loaded tracker keeps its updates, checkpoint and dirty flag, an unloaded one becomes `_read_state`'s clean tracker |
| `SimpleStore.MergeSetsTracker` | python-threatexchange/threatexchange/exchanges/helpers.py:120-127 | any other delta sets merged updates, the delta's checkpoint and dirty on that tracker alone |
| `SimpleStore.MergedAllAccumulates` | python-threatexchange/threatexchange/exchanges/helpers.py:108-127 | merging a stream of deltas none of which is a no-op against the checkpoint the previous one left sets each one on the tracker in order; the tracker ends dirty and the others are untouched |
| `SimpleStore.MergedAllMatchesFold` | python-threatexchange/threatexchange/exchanges/helpers.py:53-127 | after such a stream the tracker holds the left fold of the update maps with the merge function and the last delta's checkpoint |
| `SimpleStore.FlushedIsClean` | python-threatexchange/threatexchange/exchanges/helpers.py:129-134 | after flush no tracker is dirty, every delta is kept, and flushing again leaves the trackers the same |
| `SimpleStore.FlushWritesEachDirtyOnce` | python-threatexchange/threatexchange/exchanges/helpers.py:129-134 | a flush makes exactly as many `_write_state` calls as there are dirty trackers, and a tracker is written exactly when it was dirty |
| `SimpleStore.SecondFlushWritesNothing` | python-threatexchange/threatexchange/exchanges/helpers.py:129-134 | a second flush right after one makes no `_write_state` call |
| `DbmStore.DbmFetchedStateStore.constructor` | python-threatexchange/threatexchange/exchanges/helpers.py:155-159 | the store keeps the engine and the exchange's converter |
| `DbmStore.DbmFetchedStateStore.Merge` | python-threatexchange/threatexchange/exchanges/helpers.py:201-215 | the namespaces become `DbmMerged`: unchanged for a no-op judged against the committed checkpoint, otherwise every update written into the data namespace and the checkpoint staged |
| `DbmStore.DbmFetchedStateStore.Flush` | python-threatexchange/threatexchange/exchanges/helpers.py:191-199 | the committed key is overwritten with the staged value, with no dirty check |
| `DbmStore.DbmFetchedStateStore.GetCheckpoint` | python-threatexchange/threatexchange/exchanges/helpers.py:217-224 | returns the `checkpoint` key of `name_checkpoint` only, never the staged one |
| `DbmStore.DbmFetchedStateStore.Clear` | python-threatexchange/threatexchange/exchanges/helpers.py:185-186 | drops the data namespace only |
| `DbmStore.DbmFetchedStateStore.Exists` | python-threatexchange/threatexchange/exchanges/helpers.py:188-189 | true exactly when the data namespace exists |
| `DbmStore.DbmFetchedStateStore.GetForSignalType` | python-threatexchange/threatexchange/exchanges/helpers.py:162-183 | the result holds exactly the requested names whose stored records convert to a non-empty map for the signal type, each mapped to that conversion |
| `DbmStore.OwnNamespacesDistinct` | python-threatexchange/threatexchange/exchanges/helpers.py:197-215 | a collaboration's data and checkpoint namespaces differ, and so do the staged and committed keys |
| `DbmStore.NoOpMergeWritesNothing` | python-threatexchange/threatexchange/exchanges/helpers.py:202-208 | a delta with no updates and a checkpoint that is none or equal to the committed one writes nothing |
| `DbmStore.MergeWritesAndStages` | python-threatexchange/threatexchange/exchanges/helpers.py:201-215 | any other merge stores every update as its record, keeps the records it does not mention, stages the delta's checkpoint, and leaves the committed checkpoint unchanged |
| `DbmStore.MergeThenFlushCommits` | python-threatexchange/threatexchange/exchanges/helpers.py:191-224 | merge then flush makes `get_checkpoint` return the merged checkpoint, and the flush leaves the records alone |
| `DbmStore.FlushAlwaysWrites` | python-threatexchange/threatexchange/exchanges/helpers.py:191-199 | flush always writes the checkpoint namespace and commits whatever is staged, `Null` if nothing is |
| `DbmStore.FlushIdempotent` | python-threatexchange/threatexchange/exchanges/helpers.py:197-199 | flushing twice leaves the same state as flushing once |
| `DbmStore.ClearKeepsCheckpoints` | python-threatexchange/threatexchange/exchanges/helpers.py:185-189 | after clear the data namespace is gone and `exists` is false, but the committed and staged checkpoints are unchanged |
| `DbmStore.CommittedStableUntilFlush` | python-threatexchange/threatexchange/exchanges/helpers.py:201-224 | any number of merges without a flush leaves what `get_checkpoint` returns unchanged |
| `DbmStore.MergesThenFlushCommitLast` | python-threatexchange/threatexchange/exchanges/helpers.py:191-224 | after a stream of merges whose last delta is not a no-op, the staged checkpoint is the last delta's, and a flush makes `get_checkpoint` return it |
| `DbmStore.RevertingMergeIsSkipped` | python-threatexchange/threatexchange/exchanges/helpers.py:201-224 | a merge that brings back only the committed checkpoint is skipped, so the following flush commits the checkpoint staged before it, not the last one passed to `merge` |
| `DbmStore.CheckpointNamespaceAliasing` | python-threatexchange/threatexchange/exchanges/helpers.py:197-215 | merging a record with id `checkpoint` into collaboration `a_checkpoint` changes what `get_checkpoint` returns for collaboration `a` |

## Left out

- `naive_fetch_merge` and `naive_convert_to_signal_type` are exchange-specific. They are uninterpreted function parameters. `naive_fetch_merge` mutates its first argument in place; the model returns the merged map instead.
- The signal type argument of `naive_convert_to_signal_type` is a one-element list in the source. The model passes the single signal type.
- A collaboration config is represented by its name only. `api_cls` is represented by the two function parameters.
- `_read_state` and `_write_state` are abstract hooks that raise `NotImplementedError`. `_read_state` is a fixed function of the name, fixed when the store is built, so a subclass whose reads see its own earlier writes is beyond this model. Each `_write_state` call is recorded in the `written` log.
- `SimpleFetchedStateStore.exists` only raises `NotImplementedError` and is not modelled.
- The DBM engine (`threatexchange.exchanges.storage`, its dbm files and I/O errors) is not part of this model. The model assumes three things about it. `get` of a missing key returns `None` (`Null`). Connecting to a namespace does not create it; only `set` does. `exists` says whether the namespace is present: created by a `set` and not dropped since.
- `DbmStore.DbmFetchedStateStore.GetCheckpoint` returns the stored value (`Value`) rather than an optional checkpoint, because the source returns whatever is stored under the key, which is not always a checkpoint (see `CheckpointNamespaceAliasing`).
- Python object aliasing is not modelled: deltas are values in the model. The first delta set on a tracker is adopted as the tracker's own object in the source, and its `updates` are then replaced in place.
- `SimpleStore.SimpleFetchedStateStore.Flush` does not fix the order of its `_write_state` calls, because the model visits names in an arbitrary order where the source follows the dictionary's insertion order; the set of calls and their number are exact.
- `SimpleStore.MergedAllAccumulates` covers only streams in which no delta is a no-op when it arrives. A skipped delta does not reach the setter and leaves the tracker unchanged (`NoOpMergeChangesNothing`), so it is not a step of the fold.
- `SimpleStore.MergedAllMatchesFold` has the same restriction, for the same reason: the fold is over the deltas that reach the setter.
- `DbmStore.MergesThenFlushCommitLast` is weaker than the docstring of `get_checkpoint` ("the last checkpoint passed to merge() after a flush()"), because the code does not keep that promise when the last delta is a no-op against the committed checkpoint (`RevertingMergeIsSkipped`).
- Logging calls are not modelled. They have no effect on state.
- `SimpleFetchedSignalMetadata` is a plain record with nothing to verify.
- The NCMEC four-delta scenario depends on NCMEC-specific merge and convert semantics, which are not part of this model.
- Crashes are modelled only as the state between a `merge` and the following `flush`. Concurrency is not modelled; the source is single-threaded.
