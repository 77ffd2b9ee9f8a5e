/**
 * The orchestration layer of layman/api.py, LaymanAPI: it holds the installed
 * and the available catalog with sorted id snapshots of each, runs add,
 * delete, info and sync batches against them, and queues errors for the
 * caller to drain.
 *
 * The collaborators behind the catalogs (db.py's DB.add, DB.delete and
 * DB.sync, which check out, remove and update working copies and persist
 * the catalog) are outcome oracles: functions from an id to Done or to
 * Failed with the text of the exception.
 *
 * Each batch is specified by a function over catalog values that processes
 * the ids one at a time (AddBatch, DeleteBatch, LookupBatch, SyncBatchOf);
 * the methods of LaymanApi are proved to compute exactly that, and the
 * lemmas state what the batches promise.
 */
module Api {
  import opened Wrappers
  import opened Ordering
  import opened Overlays
  import opened DbBase
  import opened Sequences

  const ERROR_INTERNAL_ERROR: int := -2

  /**
   * The message of a queued error, by the call that queues it, with its
   * arguments; Text() is the string the source formats.
   */
  datatype ErrorText =
    | UnsupportedType(caller: string, typeText: string)
    | UnknownRepo(id: string)
    | EnableFailed(id: string, reason: string)
    | DisableFailed(id: string, reason: string)
    | NoSuchOverlay(error: UnknownOverlay)
    | SyncSelectFailed(id: string, error: UnknownOverlay)
    | FetchFailed(reason: string)
  {
    function Text(): string
    {
      match this
      case UnsupportedType(caller, t) => caller + "(), Unsupported input type: " + t
      case UnknownRepo(id) => "Repo ID '" + id + "' is not listed in the current available overlays list"
      case EnableFailed(id, reason) => "Failed to enable repository '" + id + "' : " + reason
      case DisableFailed(id, reason) => "Failed to disable repository '" + id + "':\n" + reason
      case NoSuchOverlay(e) => "Error: " + e.Message()
      case SyncSelectFailed(id, e) => "Sync(), failed to select " + id + " overlay.  Original error was: " + e.Message()
      case FetchFailed(reason) => "Failed to fetch overlay list!\n Original Error was: " + reason
    }
  }

  /** One queued error: the code and the message of an `_error` call. */
  datatype ErrorEntry = ErrorEntry(code: int, message: ErrorText)

  /**
   * The batch argument: one id (a `str`), a list of ids, or a value of any
   * other type, carried as the text of `str(type(repos))`.
   */
  datatype RepoArg = RepoId(id: string) | RepoList(ids: seq<string>) | OtherType(typeText: string)

  /** What a collaborator reports: done, or failed with the text of its exception. */
  datatype Outcome = Done | Failed(reason: string)

  /**
   * `_check_repo_type`: the ids to process and the errors it queues. As
   * written it is a staticmethod that calls `self._error`, a NameError on
   * the unsupported-type path; the model queues the evidently intended
   * error and returns no ids.
   */
  function CheckedIds(repos: RepoArg, caller: string): (r: (seq<string>, seq<ErrorEntry>))
    ensures repos.RepoId? ==> r.0 == [repos.id]
    ensures repos.RepoList? ==> r.0 == repos.ids
    ensures repos.OtherType? ==> r.0 == []
    ensures r.1 != [] <==> repos.OtherType?
    ensures repos.OtherType? ==> |r.1| == 1 && r.1[0].code == 2
  {
    match repos
    case RepoId(id) => ([id], [])
    case RepoList(ids) => (ids, [])
    case OtherType(t) => ([], [ErrorEntry(2, UnsupportedType(caller, t))])
  }

  // ---------------------------------------------------------------------------
  // add_repos and delete_repos

  /** The state of an add or delete batch: the installed catalog, per-id results, queued errors. */
  datatype Batch = Batch(installed: map<string, Overlay>, results: seq<bool>, errors: seq<ErrorEntry>)

  /** One id of `add_repos`. */
  function AddStep(b: Batch, avail: map<string, Overlay>, id: string, enable: string -> Outcome): Batch
  {
    if id in b.installed then b.(results := b.results + [true])
    else if id !in avail then
      b.(results := b.results + [false], errors := b.errors + [ErrorEntry(1, UnknownRepo(id))])
    else match enable(id)
      case Done => b.(installed := b.installed[id := avail[id]], results := b.results + [true])
      case Failed(reason) =>
        b.(results := b.results + [false],
           errors := b.errors + [ErrorEntry(ERROR_INTERNAL_ERROR, EnableFailed(id, reason))])
  }

  /**
   * `add_repos` with every id attempted in turn. The source leaves the loop
   * after an already-installed or an unknown id (see AddBatchAsWritten);
   * attempting every id is a deliberate deviation.
   */
  function AddBatch(inst: map<string, Overlay>, avail: map<string, Overlay>, ids: seq<string>,
                    enable: string -> Outcome): Batch
    decreases |ids|
  {
    if ids == [] then Batch(inst, [], [])
    else
      var n := |ids| - 1;
      AddStep(AddBatch(inst, avail, ids[..n], enable), avail, ids[n], enable)
  }

  /** The ids `add_repos` installs: available ones that are enabled without error. */
  function Enabled(ids: seq<string>, avail: map<string, Overlay>, enable: string -> Outcome): set<string>
  {
    set id | id in ids && id in avail && enable(id).Done?
  }

  /**
   * What `add_repos` does to the installed catalog: installed overlays are
   * kept as they are, each id that is available and enabled without error
   * gains the available definition, and nothing else changes.
   */
  lemma {:induction false} AddBatchInstalls(inst: map<string, Overlay>, avail: map<string, Overlay>, ids: seq<string>,
                                            enable: string -> Outcome)
    ensures var out := AddBatch(inst, avail, ids, enable).installed;
      && out.Keys == inst.Keys + Enabled(ids, avail, enable)
      && (forall k :: k in inst ==> out[k] == inst[k])
      && (forall k :: k in out && k !in inst ==> k in avail && out[k] == avail[k])
    decreases |ids|
  {
    if ids != [] {
      var n := |ids| - 1;
      var id := ids[n];
      AddBatchInstalls(inst, avail, ids[..n], enable);
      var prev := AddBatch(inst, avail, ids[..n], enable).installed;
      assert ids == ids[..n] + [id];
      var gained := if id in avail && enable(id).Done? then {id} else {};
      assert Enabled(ids, avail, enable) == Enabled(ids[..n], avail, enable) + gained;
      AddStepInstalls(AddBatch(inst, avail, ids[..n], enable), avail, id, enable);
      assert AddBatch(inst, avail, ids, enable).installed
          == if id !in prev && id in avail && enable(id).Done? then prev[id := avail[id]] else prev;
    }
  }

  /** One step of `add_repos` installs the id exactly when it is new, available and enabled. */
  lemma AddStepInstalls(b: Batch, avail: map<string, Overlay>, id: string, enable: string -> Outcome)
    ensures AddStep(b, avail, id, enable).installed
         == if id !in b.installed && id in avail && enable(id).Done? then b.installed[id := avail[id]] else b.installed
  {
  }

  /**
   * An id whose attempt in `add_repos` answers False: not installed, and
   * unknown or failing to enable. Such an id is never installed by the batch,
   * so every occurrence of it fails alike.
   */
  predicate AddFails(inst: map<string, Overlay>, avail: map<string, Overlay>, id: string, enable: string -> Outcome)
  {
    id !in inst && (id !in avail || enable(id).Failed?)
  }

  /** The error a failing id queues: UNKNOWN_REPO_ID (code 1), or the enable failure (code -2). */
  function AddError(avail: map<string, Overlay>, id: string, enable: string -> Outcome): ErrorEntry
  {
    if id in avail && enable(id).Failed? then ErrorEntry(ERROR_INTERNAL_ERROR, EnableFailed(id, enable(id).reason))
    else ErrorEntry(1, UnknownRepo(id))
  }

  /** The failing occurrences of `ids`, in batch order. */
  function AddFailures(inst: map<string, Overlay>, avail: map<string, Overlay>, ids: seq<string>,
                       enable: string -> Outcome): (r: seq<string>)
    ensures forall id :: id in r <==> id in ids && AddFails(inst, avail, id, enable)
    decreases |ids|
  {
    if ids == [] then []
    else
      var n := |ids| - 1;
      AddFailures(inst, avail, ids[..n], enable) + (if AddFails(inst, avail, ids[n], enable) then [ids[n]] else [])
  }

  /** The result `add_repos` records for each id: False exactly for a failing id. */
  lemma {:induction false} AddBatchResults(inst: map<string, Overlay>, avail: map<string, Overlay>, ids: seq<string>,
                                           enable: string -> Outcome)
    ensures var out := AddBatch(inst, avail, ids, enable);
      && |out.results| == |ids|
      && forall i :: 0 <= i < |ids| ==> out.results[i] == !AddFails(inst, avail, ids[i], enable)
    decreases |ids|
  {
    if ids != [] {
      var n := |ids| - 1;
      var id := ids[n];
      AddBatchResults(inst, avail, ids[..n], enable);
      AddBatchInstalls(inst, avail, ids[..n], enable);
      var prev := AddBatch(inst, avail, ids[..n], enable);
      var out := AddBatch(inst, avail, ids, enable);
      assert AddFails(inst, avail, id, enable) ==> id !in prev.installed;
      assert out.results == prev.results + [!AddFails(inst, avail, id, enable)];
      forall i | 0 <= i < n
        ensures out.results[i] == !AddFails(inst, avail, ids[i], enable)
      {
        assert ids[..n][i] == ids[i];
      }
    }
  }

  /** The errors `add_repos` queues: one per failing occurrence, in batch order. */
  lemma {:induction false} AddBatchErrors(inst: map<string, Overlay>, avail: map<string, Overlay>, ids: seq<string>,
                                          enable: string -> Outcome)
    ensures var f := AddFailures(inst, avail, ids, enable);
      AddBatch(inst, avail, ids, enable).errors == seq(|f|, i requires 0 <= i < |f| => AddError(avail, f[i], enable))
    decreases |ids|
  {
    if ids != [] {
      var n := |ids| - 1;
      var id := ids[n];
      AddBatchErrors(inst, avail, ids[..n], enable);
      AddBatchInstalls(inst, avail, ids[..n], enable);
      var prev := AddBatch(inst, avail, ids[..n], enable);
      var out := AddBatch(inst, avail, ids, enable);
      var f0 := AddFailures(inst, avail, ids[..n], enable);
      var f := AddFailures(inst, avail, ids, enable);
      if AddFails(inst, avail, id, enable) {
        assert id !in prev.installed;
        assert out.errors == prev.errors + [AddError(avail, id, enable)];
        assert f == f0 + [id];
      } else {
        assert out.errors == prev.errors;
        assert f == f0;
      }
    }
  }

  /**
   * What `add_repos` answers: one result per id, False exactly for an id
   * that is not installed and is unknown or fails to enable; the answer is
   * True exactly when no id fails; the queue gains UNKNOWN_REPO_ID or the
   * enable error for each failing occurrence, in batch order, and nothing
   * else.
   */
  lemma AddBatchAnswers(inst: map<string, Overlay>, avail: map<string, Overlay>, ids: seq<string>,
                        enable: string -> Outcome)
    ensures var out := AddBatch(inst, avail, ids, enable);
      var f := AddFailures(inst, avail, ids, enable);
      && |out.results| == |ids|
      && (forall i :: 0 <= i < |ids| ==> out.results[i] == !AddFails(inst, avail, ids[i], enable))
      && (false !in out.results <==> forall id :: id in ids ==> id in inst || (id in avail && enable(id).Done?))
      && out.errors == seq(|f|, i requires 0 <= i < |f| => AddError(avail, f[i], enable))
      && (out.errors == [] <==> false !in out.results)
  {
    AddBatchResults(inst, avail, ids, enable);
    AddBatchErrors(inst, avail, ids, enable);
    var out := AddBatch(inst, avail, ids, enable);
    var f := AddFailures(inst, avail, ids, enable);
    if false in out.results {
      var i :| 0 <= i < |ids| && out.results[i] == false;
      assert ids[i] in f;
    } else {
      forall id | id in ids
        ensures !AddFails(inst, avail, id, enable)
      {
        var i :| 0 <= i < |ids| && ids[i] == id;
        assert out.results[i] in out.results;
      }
      assert f == [];
    }
  }

  /** Adding ids that are all installed already answers True and changes nothing. */
  lemma AddIdempotent(inst: map<string, Overlay>, avail: map<string, Overlay>, ids: seq<string>,
                      enable: string -> Outcome)
    requires forall id :: id in ids ==> id in inst
    ensures AddBatch(inst, avail, ids, enable).installed == inst
    ensures false !in AddBatch(inst, avail, ids, enable).results
    ensures AddBatch(inst, avail, ids, enable).errors == []
  {
    AddBatchInstalls(inst, avail, ids, enable);
    AddBatchAnswers(inst, avail, ids, enable);
    var out := AddBatch(inst, avail, ids, enable);
    assert out.installed.Keys == inst.Keys;
  }

  /** One id of `delete_repos`. */
  function DeleteStep(b: Batch, avail: map<string, Overlay>, id: string, disable: string -> Outcome): Batch
  {
    if id !in b.installed then b.(results := b.results + [true])
    else if id !in avail then
      b.(results := b.results + [false], errors := b.errors + [ErrorEntry(1, UnknownRepo(id))])
    else match disable(id)
      case Done => b.(installed := b.installed - {id}, results := b.results + [true])
      case Failed(reason) =>
        b.(results := b.results + [false],
           errors := b.errors + [ErrorEntry(ERROR_INTERNAL_ERROR, DisableFailed(id, reason))])
  }

  /** `delete_repos` with every id attempted in turn (see DeleteBatchAsWritten). */
  function DeleteBatch(inst: map<string, Overlay>, avail: map<string, Overlay>, ids: seq<string>,
                       disable: string -> Outcome): Batch
    decreases |ids|
  {
    if ids == [] then Batch(inst, [], [])
    else
      var n := |ids| - 1;
      DeleteStep(DeleteBatch(inst, avail, ids[..n], disable), avail, ids[n], disable)
  }

  /** The ids `delete_repos` removes, if installed: available ones disabled without error. */
  function Disabled(ids: seq<string>, avail: map<string, Overlay>, disable: string -> Outcome): set<string>
  {
    set id | id in ids && id in avail && disable(id).Done?
  }

  /**
   * What `delete_repos` does to the installed catalog: it removes each id
   * that is still available and disabled without error and keeps every
   * other entry as it was. An installed id missing from the available
   * catalog is never removed.
   */
  lemma {:induction false} DeleteBatchRemoves(inst: map<string, Overlay>, avail: map<string, Overlay>, ids: seq<string>,
                                              disable: string -> Outcome)
    ensures var out := DeleteBatch(inst, avail, ids, disable).installed;
      && out.Keys == inst.Keys - Disabled(ids, avail, disable)
      && (forall k :: k in out ==> out[k] == inst[k])
    decreases |ids|
  {
    if ids != [] {
      var n := |ids| - 1;
      DeleteBatchRemoves(inst, avail, ids[..n], disable);
      assert ids == ids[..n] + [ids[n]];
      assert Disabled(ids, avail, disable) == Disabled(ids[..n], avail, disable)
        + (if ids[n] in avail && disable(ids[n]).Done? then {ids[n]} else {});
    }
  }

  /**
   * An id whose attempt in `delete_repos` answers False: installed, and
   * unknown or failing to disable. Such an id is never removed by the batch.
   */
  predicate DeleteFails(inst: map<string, Overlay>, avail: map<string, Overlay>, id: string,
                        disable: string -> Outcome)
  {
    id in inst && (id !in avail || disable(id).Failed?)
  }

  /** The error a failing id queues: UNKNOWN_REPO_ID (code 1), or the disable failure (code -2). */
  function DeleteError(avail: map<string, Overlay>, id: string, disable: string -> Outcome): ErrorEntry
  {
    if id in avail && disable(id).Failed? then ErrorEntry(ERROR_INTERNAL_ERROR, DisableFailed(id, disable(id).reason))
    else ErrorEntry(1, UnknownRepo(id))
  }

  /** The failing occurrences of `ids`, in batch order. */
  function DeleteFailures(inst: map<string, Overlay>, avail: map<string, Overlay>, ids: seq<string>,
                          disable: string -> Outcome): (r: seq<string>)
    ensures forall id :: id in r <==> id in ids && DeleteFails(inst, avail, id, disable)
    decreases |ids|
  {
    if ids == [] then []
    else
      var n := |ids| - 1;
      DeleteFailures(inst, avail, ids[..n], disable)
      + (if DeleteFails(inst, avail, ids[n], disable) then [ids[n]] else [])
  }

  /** The result `delete_repos` records for each id: False exactly for a failing id. */
  lemma {:induction false} DeleteBatchResults(inst: map<string, Overlay>, avail: map<string, Overlay>,
                                              ids: seq<string>, disable: string -> Outcome)
    ensures var out := DeleteBatch(inst, avail, ids, disable);
      && |out.results| == |ids|
      && forall i :: 0 <= i < |ids| ==> out.results[i] == !DeleteFails(inst, avail, ids[i], disable)
    decreases |ids|
  {
    if ids != [] {
      var n := |ids| - 1;
      var id := ids[n];
      DeleteBatchResults(inst, avail, ids[..n], disable);
      DeleteBatchRemoves(inst, avail, ids[..n], disable);
      var prev := DeleteBatch(inst, avail, ids[..n], disable);
      var out := DeleteBatch(inst, avail, ids, disable);
      assert DeleteFails(inst, avail, id, disable) ==> id in prev.installed;
      assert out.results == prev.results + [!DeleteFails(inst, avail, id, disable)];
      forall i | 0 <= i < n
        ensures out.results[i] == !DeleteFails(inst, avail, ids[i], disable)
      {
        assert ids[..n][i] == ids[i];
      }
    }
  }

  /** The errors `delete_repos` queues: one per failing occurrence, in batch order. */
  lemma {:induction false} DeleteBatchErrors(inst: map<string, Overlay>, avail: map<string, Overlay>,
                                             ids: seq<string>, disable: string -> Outcome)
    ensures var f := DeleteFailures(inst, avail, ids, disable);
      DeleteBatch(inst, avail, ids, disable).errors
        == seq(|f|, i requires 0 <= i < |f| => DeleteError(avail, f[i], disable))
    decreases |ids|
  {
    if ids != [] {
      var n := |ids| - 1;
      var id := ids[n];
      DeleteBatchErrors(inst, avail, ids[..n], disable);
      DeleteBatchRemoves(inst, avail, ids[..n], disable);
      var prev := DeleteBatch(inst, avail, ids[..n], disable);
      var out := DeleteBatch(inst, avail, ids, disable);
      var f0 := DeleteFailures(inst, avail, ids[..n], disable);
      var f := DeleteFailures(inst, avail, ids, disable);
      if DeleteFails(inst, avail, id, disable) {
        assert id in prev.installed;
        assert out.errors == prev.errors + [DeleteError(avail, id, disable)];
        assert f == f0 + [id];
      } else {
        assert out.errors == prev.errors;
        assert f == f0;
      }
    }
  }

  /**
   * What `delete_repos` answers: one result per id, False exactly for an
   * installed id that is unknown or fails to disable; the answer is True
   * exactly when no id fails; the queue gains UNKNOWN_REPO_ID or the disable
   * error for each failing occurrence, in batch order, and nothing else.
   */
  lemma DeleteBatchAnswers(inst: map<string, Overlay>, avail: map<string, Overlay>, ids: seq<string>,
                           disable: string -> Outcome)
    ensures var out := DeleteBatch(inst, avail, ids, disable);
      var f := DeleteFailures(inst, avail, ids, disable);
      && |out.results| == |ids|
      && (forall i :: 0 <= i < |ids| ==> out.results[i] == !DeleteFails(inst, avail, ids[i], disable))
      && (false !in out.results <==> forall id :: id in ids ==> id !in inst || (id in avail && disable(id).Done?))
      && out.errors == seq(|f|, i requires 0 <= i < |f| => DeleteError(avail, f[i], disable))
      && (out.errors == [] <==> false !in out.results)
  {
    DeleteBatchResults(inst, avail, ids, disable);
    DeleteBatchErrors(inst, avail, ids, disable);
    var out := DeleteBatch(inst, avail, ids, disable);
    var f := DeleteFailures(inst, avail, ids, disable);
    if false in out.results {
      var i :| 0 <= i < |ids| && out.results[i] == false;
      assert ids[i] in f;
    } else {
      forall id | id in ids
        ensures !DeleteFails(inst, avail, id, disable)
      {
        var i :| 0 <= i < |ids| && ids[i] == id;
        assert out.results[i] in out.results;
      }
      assert f == [];
    }
  }

  /** Deleting ids none of which is installed answers True and changes nothing. */
  lemma DeleteNotInstalledIsNoOp(inst: map<string, Overlay>, avail: map<string, Overlay>, ids: seq<string>,
                                 disable: string -> Outcome)
    requires forall id :: id in ids ==> id !in inst
    ensures DeleteBatch(inst, avail, ids, disable).installed == inst
    ensures false !in DeleteBatch(inst, avail, ids, disable).results
    ensures DeleteBatch(inst, avail, ids, disable).errors == []
  {
    DeleteBatchRemoves(inst, avail, ids, disable);
    DeleteBatchAnswers(inst, avail, ids, disable);
    var out := DeleteBatch(inst, avail, ids, disable);
    assert out.installed.Keys == inst.Keys;
  }

  /**
   * `add_repos` as written: the loop `break`s after an already-installed
   * id and after an unknown id, so the ids behind it are never attempted.
   */
  function AddLoopAsWritten(b: Batch, avail: map<string, Overlay>, ids: seq<string>, enable: string -> Outcome): Batch
    decreases |ids|
  {
    if ids == [] then b
    else if ids[0] in b.installed || ids[0] !in avail then AddStep(b, avail, ids[0], enable)
    else AddLoopAsWritten(AddStep(b, avail, ids[0], enable), avail, ids[1..], enable)
  }

  function AddBatchAsWritten(inst: map<string, Overlay>, avail: map<string, Overlay>, ids: seq<string>,
                             enable: string -> Outcome): Batch
  {
    AddLoopAsWritten(Batch(inst, [], []), avail, ids, enable)
  }

  /** `delete_repos` as written: it `break`s after a not-installed id and after an unknown id. */
  function DeleteLoopAsWritten(b: Batch, avail: map<string, Overlay>, ids: seq<string>, disable: string -> Outcome): Batch
    decreases |ids|
  {
    if ids == [] then b
    else if ids[0] !in b.installed || ids[0] !in avail then DeleteStep(b, avail, ids[0], disable)
    else DeleteLoopAsWritten(DeleteStep(b, avail, ids[0], disable), avail, ids[1..], disable)
  }

  function DeleteBatchAsWritten(inst: map<string, Overlay>, avail: map<string, Overlay>, ids: seq<string>,
                                disable: string -> Outcome): Batch
  {
    DeleteLoopAsWritten(Batch(inst, [], []), avail, ids, disable)
  }

  /** A one-source overlay for the examples below. */
  function Example(name: string): Overlay
  {
    OverlayRecord(name, "", "", "", "", 0, "", "", [Source("git", "git://example.org/" + name)])
  }

  function AlwaysDone(id: string): Outcome
  {
    Done
  }

  /**
   * With "a" installed and "a", "b" available, `add_repos(["a", "b"])` as
   * written answers True without installing "b"; the per-id batch installs it.
   */
  lemma AddBreakSkipsLaterIds()
    ensures var inst := map["a" := Example("a")];
      var avail := map["a" := Example("a"), "b" := Example("b")];
      var asWritten := AddBatchAsWritten(inst, avail, ["a", "b"], AlwaysDone);
      var intended := AddBatch(inst, avail, ["a", "b"], AlwaysDone);
      && "b" !in asWritten.installed && false !in asWritten.results
      && "b" in intended.installed && intended.installed["b"] == Example("b")
  {
    var inst := map["a" := Example("a")];
    var avail := map["a" := Example("a"), "b" := Example("b")];
    assert ["a", "b"][..1] == ["a"];
    assert AddBatch(inst, avail, ["a"], AlwaysDone).installed == inst;
  }

  /**
   * With only "b" installed and both available, `delete_repos(["a", "b"])`
   * as written answers True and keeps "b"; the per-id batch removes it.
   */
  lemma DeleteBreakSkipsLaterIds()
    ensures var inst := map["b" := Example("b")];
      var avail := map["a" := Example("a"), "b" := Example("b")];
      var asWritten := DeleteBatchAsWritten(inst, avail, ["a", "b"], AlwaysDone);
      var intended := DeleteBatch(inst, avail, ["a", "b"], AlwaysDone);
      && "b" in asWritten.installed && false !in asWritten.results
      && "b" !in intended.installed
  {
    var inst := map["b" := Example("b")];
    var avail := map["a" := Example("a"), "b" := Example("b")];
    assert ["a", "b"][..1] == ["a"];
    assert DeleteBatch(inst, avail, ["a"], AlwaysDone).installed == inst;
  }

  // ---------------------------------------------------------------------------
  // get_all_info and get_info_str

  /**
   * A value of the result dictionaries: the tuple `(text, official,
   * supported)` of `get_info_str`, which is also the placeholder
   * `('', False, False)` both methods store for an unknown id, or the info
   * dictionary of `get_all_info`.
   */
  datatype InfoValue =
    | InfoTuple(text: string, official: bool, supported: bool)
    | InfoRecord(name: string, ownerName: string, ownerEmail: string, homepage: string, description: string,
                 srcUris: seq<string>, srcType: string, priority: int, quality: string, status: string,
                 official: bool, supported: bool)

  const Placeholder: InfoValue := InfoTuple("", false, false)

  /** Which of the two methods builds the value. */
  datatype InfoKind = AllInfo | InfoString

  function Describe(kind: InfoKind, views: Views, o: Overlay): (r: InfoValue)
    ensures r.InfoRecord? <==> kind.AllInfo?
    ensures r.InfoRecord? ==> r.name == o.name && r.srcUris == SourceUris(o) && r.srcType == o.sources[0].kind
    ensures r.InfoTuple? ==> r.text == views.str(o)
    ensures r.official == views.isOfficial(o) && r.supported == views.isSupported(o)
  {
    match kind
    case AllInfo =>
      InfoRecord(o.name, o.ownerName, o.ownerEmail, o.homepage, o.description, SourceUris(o), o.sources[0].kind,
                 o.priority, o.quality, o.status, views.isOfficial(o), views.isSupported(o))
    case InfoString => InfoTuple(views.str(o), views.isOfficial(o), views.isSupported(o))
  }

  /**
   * One id: an unknown id queues UNKNOWN_REPO_ID and then, because the code
   * falls through into `select`, the unknown-overlay error as well.
   */
  function LookupStep(b: (map<string, InfoValue>, seq<ErrorEntry>), avail: map<string, Overlay>, id: string,
                      kind: InfoKind, views: Views): (r: (map<string, InfoValue>, seq<ErrorEntry>))
    ensures id in r.0 && r.0 == b.0[id := r.0[id]]
    ensures |r.1| >= |b.1| && r.1[..|b.1|] == b.1
    ensures r.1 == b.1 <==> id in avail
  {
    if id !in avail then
      (b.0[id := Placeholder],
       b.1 + [ErrorEntry(1, UnknownRepo(id)), ErrorEntry(2, NoSuchOverlay(UnknownOverlay(id)))])
    else (b.0[id := Describe(kind, views, avail[id])], b.1)
  }

  function LookupBatch(avail: map<string, Overlay>, ids: seq<string>, kind: InfoKind, views: Views)
    : (map<string, InfoValue>, seq<ErrorEntry>)
    decreases |ids|
  {
    if ids == [] then (map[], [])
    else
      var n := |ids| - 1;
      LookupStep(LookupBatch(avail, ids[..n], kind, views), avail, ids[n], kind, views)
  }

  /** The ids of `ids` that are not keys of `m` (unknown, or not installed), in order. */
  function Unknown(ids: seq<string>, m: map<string, Overlay>): (r: seq<string>)
    ensures forall id :: id in r <==> id in ids && id !in m
    decreases |ids|
  {
    if ids == [] then []
    else
      var n := |ids| - 1;
      Unknown(ids[..n], m) + (if ids[n] in m then [] else [ids[n]])
  }

  /**
   * Each unknown occurrence queues UNKNOWN_REPO_ID (code 1) and then the
   * unknown-overlay error (code 2) for that id, in batch order, and nothing
   * else is queued.
   */
  lemma {:induction false} LookupErrors(avail: map<string, Overlay>, ids: seq<string>, kind: InfoKind, views: Views)
    ensures var errs := LookupBatch(avail, ids, kind, views).1;
      var u := Unknown(ids, avail);
      && |errs| == 2 * |u|
      && forall k :: 0 <= k < |u| ==>
           errs[2 * k] == ErrorEntry(1, UnknownRepo(u[k]))
           && errs[2 * k + 1] == ErrorEntry(2, NoSuchOverlay(UnknownOverlay(u[k])))
    decreases |ids|
  {
    if ids != [] {
      var n := |ids| - 1;
      var id := ids[n];
      LookupErrors(avail, ids[..n], kind, views);
      var prev := LookupBatch(avail, ids[..n], kind, views).1;
      var errs := LookupBatch(avail, ids, kind, views).1;
      var u0 := Unknown(ids[..n], avail);
      var u := Unknown(ids, avail);
      if id !in avail {
        assert errs == prev + [ErrorEntry(1, UnknownRepo(id)), ErrorEntry(2, NoSuchOverlay(UnknownOverlay(id)))];
        assert u == u0 + [id];
        forall k | 0 <= k < |u|
          ensures errs[2 * k] == ErrorEntry(1, UnknownRepo(u[k]))
          ensures errs[2 * k + 1] == ErrorEntry(2, NoSuchOverlay(UnknownOverlay(u[k])))
        {
          if k < |u0| {
            assert u[k] == u0[k];
          }
        }
      } else {
        assert errs == prev && u == u0;
      }
    }
  }

  /**
   * Every requested id gets an entry: the description of its available
   * overlay, or the placeholder; each unknown occurrence queues
   * UNKNOWN_REPO_ID and then the unknown-overlay error for that id.
   */
  lemma {:induction false} LookupCovers(avail: map<string, Overlay>, ids: seq<string>, kind: InfoKind, views: Views)
    ensures var out := LookupBatch(avail, ids, kind, views);
      var u := Unknown(ids, avail);
      && (forall id :: id in out.0 <==> id in ids)
      && (forall id :: id in out.0 ==>
            out.0[id] == if id in avail then Describe(kind, views, avail[id]) else Placeholder)
      && |out.1| == 2 * |u|
      && (forall k :: 0 <= k < |u| ==>
            out.1[2 * k] == ErrorEntry(1, UnknownRepo(u[k]))
            && out.1[2 * k + 1] == ErrorEntry(2, NoSuchOverlay(UnknownOverlay(u[k]))))
    decreases |ids|
  {
    LookupErrors(avail, ids, kind, views);
    if ids != [] {
      var n := |ids| - 1;
      assert ids == ids[..n] + [ids[n]];
      LookupCovers(avail, ids[..n], kind, views);
    }
  }

  /**
   * `get_all_info` on a name-keyed available catalog: a known id's record
   * carries that name, all the overlay's source URIs in order and the type
   * of its primary source; an unknown id gets the placeholder tuple.
   */
  lemma AllInfoRecords(avail: map<string, Overlay>, ids: seq<string>, views: Views, id: string)
    requires NameKeyed(avail) && id in ids
    ensures var out := LookupBatch(avail, ids, AllInfo, views).0;
      && id in out
      && (id !in avail ==> out[id] == Placeholder)
      && (id in avail ==>
            && out[id].InfoRecord? && out[id].name == id
            && out[id].srcUris == SourceUris(avail[id])
            && out[id].srcType == avail[id].sources[0].kind)
  {
    LookupCovers(avail, ids, AllInfo, views);
  }

  // ---------------------------------------------------------------------------
  // sync

  /** A success or fatal entry: the id, and what Message() renders. */
  datatype Report =
    | Synced(id: string)
    | SyncFailed(id: string, reason: string)
  {
    function Message(): string
    {
      match this
      case Synced(id) => "Successfully synchronized overlay \"" + id + "\"."
      case SyncFailed(id, reason) => "Failed to sync overlay \"" + id + "\".\nError was: " + reason
    }
  }

  /** The dictionary of the drift warning. */
  datatype DriftParams = DriftParams(repoName: string, currentSrc: string, candidates: string, plural: string)

  /**
   * A warning: the overlay is missing from the remote lists, or its source
   * changed. Text() is the message: for a changed source, the drift template
   * filled in with its parameters, as the output loop of `sync` evidently
   * expects; as written the source appends the unformatted 3-tuple instead
   * (see SyncAnswerAsWritten).
   */
  datatype Warning =
    | NotInRemote(id: string)
    | SourceChanged(id: string, params: DriftParams)
  {
    function Text(): string
    {
      match this
      case NotInRemote(id) =>
        "Overlay \"" + id + "\" could not be found in the remote lists.\n"
        + "Please check if it has been renamed and re-add if necessary."
      case SourceChanged(_, p) => DriftMessage(p)
    }
  }

  /** The drift template as the source writes it, with its `%(name)s` fields. */
  const DriftTemplate: string :=
    "The source of the overlay \"%(repo_name)s\" seems to have changed.\n"
    + "You currently sync from\n"
    + "\n"
    + "  %(current_src)s\n"
    + "\n"
    + "while the remote lists report\n"
    + "\n"
    + "%(candidates)s\n"
    + "\n"
    + "as correct location%(plural)s.\n"
    + "Please consider removing and re-adding the overlay."

  /** `DriftTemplate % params`: each field replaced by its parameter. */
  function DriftMessage(p: DriftParams): string
  {
    "The source of the overlay \"" + p.repoName + "\" seems to have changed.\n"
    + "You currently sync from\n"
    + "\n"
    + "  " + p.currentSrc + "\n"
    + "\n"
    + "while the remote lists report\n"
    + "\n"
    + p.candidates + "\n"
    + "\n"
    + "as correct location" + p.plural + ".\n"
    + "Please consider removing and re-adding the overlay."
  }

  function DigitChar(d: nat): char
    requires d < 10
  {
    "0123456789"[d]
  }

  /** `'%d' % n` for a natural number. */
  function DecimalText(n: nat): string
    decreases n
  {
    if n < 10 then [DigitChar(n)] else DecimalText(n / 10) + [DigitChar(n % 10)]
  }

  /** `'\n'.join(lines)`. */
  function Join(lines: seq<string>): string
    decreases |lines|
  {
    if lines == [] then "" else if |lines| == 1 then lines[0] else lines[0] + "\n" + Join(lines[1..])
  }

  /** `'  %d. %s' % (i + 1, v)` for each candidate, numbered from 1. */
  function NumberedLines(srcs: seq<string>): (r: seq<string>)
    ensures |r| == |srcs|
    ensures forall i :: 0 <= i < |srcs| ==> r[i] == "  " + DecimalText(i + 1) + ". " + srcs[i]
  {
    seq(|srcs|, i requires 0 <= i < |srcs| => "  " + DecimalText(i + 1) + ". " + srcs[i])
  }

  /**
   * The drift warning for `id`: the installed primary URI and the available
   * URIs, listed once each (the set is iterated in ascending order).
   */
  function DriftWarning(id: string, current: string, available: set<string>): (w: Warning)
    ensures w.SourceChanged? && w.id == id
    ensures w.params.repoName == id && w.params.currentSrc == current
    ensures w.params.plural == "" <==> |available| == 1
    ensures w.params.plural != "" ==> w.params.plural == "s"
    ensures forall s :: s in available && |available| == 1 ==> w.params.candidates == "  " + s
    ensures |available| != 1 ==> w.params.candidates == Join(NumberedLines(SortedIds(available)))
  {
    var srcs := SortedIds(available);
    if |srcs| == 1 then
      assert forall s :: s in available ==> s == srcs[0];
      SourceChanged(id, DriftParams(id, current, "  " + srcs[0], ""))
    else
      SourceChanged(id, DriftParams(id, current, Join(NumberedLines(srcs)), "s"))
  }

  /** The installed primary URI is not among the available overlay's URIs. */
  predicate Drifted(installed: Overlay, available: Overlay)
  {
    installed.sources[0].src !in SourceSet(available)
  }

  datatype SyncBatch = SyncBatch(success: seq<Report>, warnings: seq<Warning>, fatals: seq<Report>,
                                 errors: seq<ErrorEntry>)

  /** The warning `sync` records for one id: none, a missing-remotely or a drift warning. */
  function WarningFor(inst: map<string, Overlay>, avail: map<string, Overlay>, id: string): (r: seq<Warning>)
    ensures |r| <= 1
    ensures forall w :: w in r ==> w.id == id
    ensures r != [] <==> id in inst && (id !in avail || Drifted(inst[id], avail[id]))
    ensures r != [] ==> (r[0].NotInRemote? <==> id !in avail)
  {
    if id !in inst then []
    else if id !in avail then [NotInRemote(id)]
    else if Drifted(inst[id], avail[id]) then [DriftWarning(id, inst[id].sources[0].src, SourceSet(avail[id]))]
    else []
  }

  /**
   * One id of `sync`: a not-installed id queues an error; an installed one
   * may draw a warning and then lands in success or fatals by the outcome
   * of its adapter call.
   */
  function SyncStep(b: SyncBatch, inst: map<string, Overlay>, avail: map<string, Overlay>, id: string,
                    adapter: string -> Outcome): SyncBatch
  {
    SyncBatch(
      b.success + (if id in inst && adapter(id).Done? then [Synced(id)] else []),
      b.warnings + WarningFor(inst, avail, id),
      b.fatals + (if id in inst && adapter(id).Failed? then [SyncFailed(id, adapter(id).reason)] else []),
      b.errors + (if id in inst then [] else [ErrorEntry(1, SyncSelectFailed(id, UnknownOverlay(id)))]))
  }

  function SyncBatchOf(inst: map<string, Overlay>, avail: map<string, Overlay>, ids: seq<string>,
                       adapter: string -> Outcome): SyncBatch
    decreases |ids|
  {
    if ids == [] then SyncBatch([], [], [], [])
    else
      var n := |ids| - 1;
      SyncStep(SyncBatchOf(inst, avail, ids[..n], adapter), inst, avail, ids[n], adapter)
  }

  function ReportIds(rs: seq<Report>): seq<string>
    decreases |rs|
  {
    if rs == [] then [] else ReportIds(rs[..|rs| - 1]) + [rs[|rs| - 1].id]
  }

  function WarningIds(ws: seq<Warning>): seq<string>
    decreases |ws|
  {
    if ws == [] then [] else WarningIds(ws[..|ws| - 1]) + [ws[|ws| - 1].id]
  }

  lemma ReportIdsSnoc(rs: seq<Report>, r: Report)
    ensures ReportIds(rs + [r]) == ReportIds(rs) + [r.id]
  {
    assert (rs + [r])[..|rs|] == rs;
  }

  /** The installed ids of `ids` whose sync ends as `synced` says, in order. */
  function InstalledWith(ids: seq<string>, inst: map<string, Overlay>, adapter: string -> Outcome, synced: bool)
    : (r: seq<string>)
    ensures forall id :: id in r <==> id in ids && id in inst && adapter(id).Done? == synced
    decreases |ids|
  {
    if ids == [] then []
    else
      var n := |ids| - 1;
      InstalledWith(ids[..n], inst, adapter, synced)
      + (if ids[n] in inst && adapter(ids[n]).Done? == synced then [ids[n]] else [])
  }

  /** The installed ids of `ids` that draw a warning, in order. */
  function Warned(ids: seq<string>, inst: map<string, Overlay>, avail: map<string, Overlay>): (r: seq<string>)
    ensures forall id :: id in r <==>
              id in ids && id in inst && (id !in avail || Drifted(inst[id], avail[id]))
    decreases |ids|
  {
    if ids == [] then []
    else
      var n := |ids| - 1;
      var id := ids[n];
      Warned(ids[..n], inst, avail)
      + (if id in inst && (id !in avail || Drifted(inst[id], avail[id])) then [id] else [])
  }

  /** The installed ids whose adapter call succeeds are the success list, in batch order. */
  lemma {:induction false} SyncSuccesses(inst: map<string, Overlay>, avail: map<string, Overlay>, ids: seq<string>,
                                         adapter: string -> Outcome)
    ensures ReportIds(SyncBatchOf(inst, avail, ids, adapter).success) == InstalledWith(ids, inst, adapter, true)
    decreases |ids|
  {
    if ids != [] {
      var n := |ids| - 1;
      var id := ids[n];
      SyncSuccesses(inst, avail, ids[..n], adapter);
      var before := SyncBatchOf(inst, avail, ids[..n], adapter).success;
      var out := SyncBatchOf(inst, avail, ids, adapter).success;
      if id in inst && adapter(id).Done? {
        assert out == before + [Synced(id)];
        ReportIdsSnoc(before, Synced(id));
      } else {
        assert out == before;
      }
    }
  }

  /** The installed ids whose adapter call fails are the fatal list, in batch order. */
  lemma {:induction false} SyncFatals(inst: map<string, Overlay>, avail: map<string, Overlay>, ids: seq<string>,
                                      adapter: string -> Outcome)
    ensures ReportIds(SyncBatchOf(inst, avail, ids, adapter).fatals) == InstalledWith(ids, inst, adapter, false)
    decreases |ids|
  {
    if ids != [] {
      var n := |ids| - 1;
      var id := ids[n];
      SyncFatals(inst, avail, ids[..n], adapter);
      var before := SyncBatchOf(inst, avail, ids[..n], adapter).fatals;
      var out := SyncBatchOf(inst, avail, ids, adapter).fatals;
      if id in inst && adapter(id).Failed? {
        var r := SyncFailed(id, adapter(id).reason);
        assert out == before + [r];
        ReportIdsSnoc(before, r);
      } else {
        assert out == before;
      }
    }
  }

  lemma WarningIdsSnoc(ws: seq<Warning>, w: Warning)
    ensures WarningIds(ws + [w]) == WarningIds(ws) + [w.id]
  {
    assert (ws + [w])[..|ws|] == ws;
  }

  /** The installed ids that are missing remotely or whose source drifted are the warning list. */
  lemma {:induction false} SyncWarnings(inst: map<string, Overlay>, avail: map<string, Overlay>, ids: seq<string>,
                                        adapter: string -> Outcome)
    ensures WarningIds(SyncBatchOf(inst, avail, ids, adapter).warnings) == Warned(ids, inst, avail)
    decreases |ids|
  {
    if ids != [] {
      var n := |ids| - 1;
      SyncWarnings(inst, avail, ids[..n], adapter);
      var before := SyncBatchOf(inst, avail, ids[..n], adapter).warnings;
      var out := SyncBatchOf(inst, avail, ids, adapter).warnings;
      var id := ids[n];
      var found := WarningFor(inst, avail, id);
      assert out == before + found;
      assert Warned(ids, inst, avail) == Warned(ids[..n], inst, avail) + (if found != [] then [id] else []);
      if found != [] {
        assert found == [found[0]];
        WarningIdsSnoc(before, found[0]);
      } else {
        assert out == before;
      }
    }
  }

  /**
   * The errors `sync` queues: one code-1 select failure for each occurrence
   * of an id that is not installed, in batch order, and nothing else.
   */
  lemma {:induction false} SyncErrors(inst: map<string, Overlay>, avail: map<string, Overlay>, ids: seq<string>,
                                      adapter: string -> Outcome)
    ensures var u := Unknown(ids, inst);
      SyncBatchOf(inst, avail, ids, adapter).errors
        == seq(|u|, i requires 0 <= i < |u| => ErrorEntry(1, SyncSelectFailed(u[i], UnknownOverlay(u[i]))))
    decreases |ids|
  {
    if ids != [] {
      var n := |ids| - 1;
      var id := ids[n];
      SyncErrors(inst, avail, ids[..n], adapter);
      var prev := SyncBatchOf(inst, avail, ids[..n], adapter).errors;
      var errs := SyncBatchOf(inst, avail, ids, adapter).errors;
      var u0 := Unknown(ids[..n], inst);
      var u := Unknown(ids, inst);
      if id !in inst {
        assert errs == prev + [ErrorEntry(1, SyncSelectFailed(id, UnknownOverlay(id)))];
        assert u == u0 + [id];
      } else {
        assert errs == prev && u == u0;
      }
    }
  }

  /** Every installed id of the batch lands in exactly one of success and fatals; others in no list. */
  lemma SyncExactlyOne(inst: map<string, Overlay>, avail: map<string, Overlay>, ids: seq<string>,
                       adapter: string -> Outcome, id: string)
    requires id in ids
    ensures var out := SyncBatchOf(inst, avail, ids, adapter);
      && (id in inst ==> (id in ReportIds(out.success)) != (id in ReportIds(out.fatals)))
      && (id !in inst ==> id !in ReportIds(out.success) && id !in ReportIds(out.fatals)
                          && id !in WarningIds(out.warnings))
  {
    SyncSuccesses(inst, avail, ids, adapter);
    SyncFatals(inst, avail, ids, adapter);
    SyncWarnings(inst, avail, ids, adapter);
  }

  /**
   * A warning names an installed id; it is the missing-remotely kind exactly
   * when the id is not available, and otherwise the drift warning built
   * from the installed primary URI and the available URIs.
   */
  lemma {:induction false} SyncWarningKinds(inst: map<string, Overlay>, avail: map<string, Overlay>, ids: seq<string>,
                                            adapter: string -> Outcome)
    ensures forall w :: w in SyncBatchOf(inst, avail, ids, adapter).warnings ==>
      && w.id in inst
      && (w.NotInRemote? <==> w.id !in avail)
      && (w.SourceChanged? ==>
            && w.id in avail && Drifted(inst[w.id], avail[w.id])
            && w == DriftWarning(w.id, inst[w.id].sources[0].src, SourceSet(avail[w.id])))
    decreases |ids|
  {
    if ids != [] {
      SyncWarningKinds(inst, avail, ids[..|ids| - 1], adapter);
    }
  }

  /**
   * A warning as the source appends it: the pair `(id, message)` for a
   * missing overlay, the 3-tuple `(id, template, params)` for a changed
   * source.
   */
  datatype WarningTuple =
    | Pair(id: string, message: string)
    | Triple(id: string, template: string, params: DriftParams)

  function AsWrittenTuple(w: Warning): (r: WarningTuple)
    ensures r.id == w.id
    ensures r.Triple? <==> w.SourceChanged?
    ensures r.Pair? ==> r.message == w.Text()
    ensures r.Triple? ==> r.template == DriftTemplate && r.params == w.params
  {
    match w
    case NotInRemote(id) => Pair(id, w.Text())
    case SourceChanged(id, p) => Triple(id, DriftTemplate, p)
  }

  /** How a call of `sync` ends: with an answer, or with an exception out of it. */
  datatype SyncAnswer = Answered(ok: bool) | RaisedValueError

  /**
   * The end of `sync` as written: with `output_results` set, the loop
   * `for id, result in warnings` unpacks each warning into two names, so a
   * 3-tuple raises ValueError before the answer and before `sync_results`
   * is stored. Otherwise it answers False exactly when it printed fatals.
   */
  function SyncAnswerAsWritten(outputResults: bool, out: SyncBatch): SyncAnswer
  {
    if outputResults && exists w :: w in out.warnings && AsWrittenTuple(w).Triple? then RaisedValueError
    else Answered(!(outputResults && out.fatals != []))
  }

  /** A one-source overlay named `name` that syncs from `src`. */
  function SyncingFrom(name: string, src: string): Overlay
  {
    OverlayRecord(name, "", "", "", "", 0, "", "", [Source("git", src)])
  }

  /**
   * With "x" installed from "a" and listed remotely at "b", a successful
   * `sync(["x"])` with output on draws one drift warning and no fatal: as
   * written it raises ValueError; the intended `sync` answers True and the
   * warning reads as the filled-in template.
   */
  lemma DriftWarningBreaksOutput()
    ensures var inst := map["x" := SyncingFrom("x", "a")];
      var avail := map["x" := SyncingFrom("x", "b")];
      var out := SyncBatchOf(inst, avail, ["x"], AlwaysDone);
      && out.warnings == [SourceChanged("x", DriftParams("x", "a", "  b", ""))]
      && out.fatals == []
      && SyncAnswerAsWritten(true, out) == RaisedValueError
      && out.warnings[0].Text() == DriftMessage(DriftParams("x", "a", "  b", ""))
  {
    var inst := map["x" := SyncingFrom("x", "a")];
    var avail := map["x" := SyncingFrom("x", "b")];
    assert SourceSet(avail["x"]) == {"b"};
    assert Drifted(inst["x"], avail["x"]);
    var w := DriftWarning("x", "a", {"b"});
    assert w == SourceChanged("x", DriftParams("x", "a", "  b", ""));
    assert ["x"][..0] == [];
    var out := SyncBatchOf(inst, avail, ["x"], AlwaysDone);
    assert out.warnings == [w];
    assert w in out.warnings && AsWrittenTuple(w).Triple?;
  }

  // ---------------------------------------------------------------------------
  // The API object

  /** `sync_results`: the three lists of the last sync that returned True. */
  datatype SyncResults = SyncResults(success: seq<Report>, warnings: seq<Warning>, fatals: seq<Report>)

  /** LaymanAPI. */
  class LaymanApi {
    var installedDb: Catalog
    var installedIds: seq<string>
    var availableDb: Catalog
    var availableIds: seq<string>
    var errorMessages: seq<ErrorEntry>
    /** None stands for the initial `[]`, before any sync stored its lists. */
    var syncResults: Option<SyncResults>
    const views: Views

    /** The id snapshots list the names of their catalogs in ascending order. */
    ghost predicate Valid()
      reads this`installedDb, this`installedIds, this`availableDb, this`availableIds, installedDb, availableDb
    {
      && installedDb != availableDb
      && installedDb.Valid() && availableDb.Valid()
      && ListsInOrder(installedIds, installedDb.overlays.Keys)
      && ListsInOrder(availableIds, availableDb.overlays.Keys)
    }

    /**
     * `__init__` followed by `reload()`: `local` and `remote` are the DB and
     * RemoteDB read from the configured files.
     */
    constructor (local: Catalog, remote: Catalog, views: Views)
      requires local != remote && local.Valid() && remote.Valid()
      ensures Valid()
      ensures installedDb == local && availableDb == remote && this.views == views
      ensures errorMessages == [] && syncResults == None
    {
      this.views := views;
      installedDb := local;
      installedIds := local.ListIds();
      availableDb := remote;
      availableIds := remote.ListIds();
      errorMessages := [];
      syncResults := None;
    }

    /** `is_repo`: membership in the available id snapshot. */
    function IsRepo(id: string): (r: bool)
      requires Valid()
      reads this, installedDb, availableDb
      ensures r <==> id in availableIds
      ensures r <==> id in availableDb.overlays
    {
      id in availableIds
    }

    /** `is_installed`: membership in the installed id snapshot. */
    function IsInstalled(id: string): (r: bool)
      requires Valid()
      reads this, installedDb, availableDb
      ensures r <==> id in installedIds
      ensures r <==> id in installedDb.overlays
    {
      id in installedIds
    }

    /** `_error`: appends to the queue; echoing it to stderr is output. */
    method Error(code: int, message: ErrorText)
      modifies this`errorMessages
      ensures errorMessages == old(errorMessages) + [ErrorEntry(code, message)]
    {
      errorMessages := errorMessages + [ErrorEntry(code, message)];
    }

    /** `get_errors`: hands out the queue and empties it; None when it is empty. */
    method GetErrors() returns (r: Option<seq<ErrorEntry>>)
      modifies this`errorMessages
      ensures old(errorMessages) != [] ==> r == Some(old(errorMessages))
      ensures old(errorMessages) == [] ==> r == None
      ensures errorMessages == []
    {
      if errorMessages != [] {
        r := Some(errorMessages);
        errorMessages := [];
      } else {
        r := None;
      }
    }

    method CheckRepoType(repos: RepoArg, caller: string) returns (ids: seq<string>)
      modifies this`errorMessages
      ensures ids == CheckedIds(repos, caller).0
      ensures errorMessages == old(errorMessages) + CheckedIds(repos, caller).1
    {
      match repos {
        case RepoId(id) =>
          ids := [id];
        case RepoList(list) =>
          ids := list;
        case OtherType(t) =>
          Error(2, UnsupportedType(caller, t));
          ids := [];
      }
    }

    /**
     * `get_available`: replaces the available catalog by `remote` (a fresh
     * RemoteDB) when `reload` is set, and returns a copy of the sorted ids.
     * The constructor loads both catalogs, so "no catalog yet" never holds
     * here.
     */
    method GetAvailable(reload: bool, remote: Catalog) returns (ids: seq<string>)
      requires Valid()
      requires reload ==> remote != installedDb && remote.Valid()
      modifies this`availableDb, this`availableIds
      ensures Valid()
      ensures availableDb == (if reload then remote else old(availableDb))
      ensures StrictlySorted(ids) && (forall k :: k in ids <==> k in availableDb.overlays)
      ensures ids == availableIds
    {
      if reload {
        availableDb := remote;
        availableIds := remote.ListIds();
      }
      ids := availableIds;
    }

    /** `get_installed`: the same for the installed catalog and a fresh DB `local`. */
    method GetInstalled(reload: bool, local: Catalog) returns (ids: seq<string>)
      requires Valid()
      requires reload ==> local != availableDb && local.Valid()
      modifies this`installedDb, this`installedIds
      ensures Valid()
      ensures installedDb == (if reload then local else old(installedDb))
      ensures StrictlySorted(ids) && (forall k :: k in ids <==> k in installedDb.overlays)
      ensures ids == installedIds
    {
      if reload {
        installedDb := local;
        installedIds := local.ListIds();
      }
      ids := installedIds;
    }

    /** `reload`: both catalogs replaced, available first. */
    method Reload(remote: Catalog, local: Catalog)
      requires Valid()
      requires remote != local && remote != installedDb && remote.Valid() && local.Valid()
      modifies this`availableDb, this`availableIds, this`installedDb, this`installedIds
      ensures Valid() && availableDb == remote && installedDb == local
    {
      var _ := GetAvailable(true, remote);
      var _ := GetInstalled(true, local);
    }

    /** `fetch_remote_list`: refreshing the cache either works or queues an error. */
    method FetchRemoteList(cache: Outcome) returns (ok: bool)
      modifies this`errorMessages
      ensures ok <==> cache.Done?
      ensures cache.Done? ==> errorMessages == old(errorMessages)
      ensures cache.Failed? ==> errorMessages == old(errorMessages) + [ErrorEntry(-1, FetchFailed(cache.reason))]
    {
      if cache.Failed? {
        Error(-1, FetchFailed(cache.reason));
        return false;
      }
      return true;
    }

    /** One pass of the loop of `add_repos`, for `id`. */
    method AddOne(id: string, enable: string -> Outcome, ghost errs0: seq<ErrorEntry>, ghost b: Batch)
      returns (result: bool)
      requires Valid()
      requires installedDb.overlays == b.installed && errorMessages == errs0 + b.errors
      modifies this`errorMessages, this`installedIds, installedDb`overlays
      ensures Valid()
      ensures var next := AddStep(b, availableDb.overlays, id, enable);
        && installedDb.overlays == next.installed
        && errorMessages == errs0 + next.errors
        && next.results == b.results + [result]
    {
      ghost var avail := availableDb.overlays;
      if IsInstalled(id) {
        result := true;
        assert AddStep(b, avail, id, enable) == b.(results := b.results + [true]);
      } else if !IsRepo(id) {
        Error(1, UnknownRepo(id));
        result := false;
        AppendTwice(errs0, b.errors, [ErrorEntry(1, UnknownRepo(id))]);
      } else {
        // `self._available_db.select(id)` cannot raise: `is_repo` holds.
        var ovl := availableDb.overlays[id];
        var outcome := enable(id);
        match outcome {
          case Done =>
            installedDb.overlays := installedDb.overlays[id := ovl];
            result := true;
            assert NameKeyed(installedDb.overlays);
          case Failed(reason) =>
            Error(ERROR_INTERNAL_ERROR, EnableFailed(id, reason));
            result := false;
            AppendTwice(errs0, b.errors, [ErrorEntry(ERROR_INTERNAL_ERROR, EnableFailed(id, reason))]);
        }
        // The reload reads back what DB.add wrote.
        installedIds := installedDb.ListIds();
        assert ListsInOrder(installedIds, installedDb.overlays.Keys);
      }
    }

    /**
     * `add_repos`: `enable` is DB.add's outcome per id. The reload after
     * each attempt reads back what DB.add wrote, so it refreshes the id
     * snapshot of the same catalog.
     */
    method AddRepos(repos: RepoArg, enable: string -> Outcome) returns (ok: bool)
      requires Valid()
      modifies this`errorMessages, this`installedIds, installedDb`overlays
      ensures Valid()
      ensures var ids := CheckedIds(repos, "add_repo");
        var out := AddBatch(old(installedDb.overlays), availableDb.overlays, ids.0, enable);
        && installedDb.overlays == out.installed
        && errorMessages == old(errorMessages) + ids.1 + out.errors
        && (ok <==> false !in out.results)
    {
      var ids := CheckRepoType(repos, "add_repo");
      ghost var inst0 := installedDb.overlays;
      ghost var errs0 := errorMessages;
      ghost var avail := availableDb.overlays;
      var results: seq<bool> := [];
      var i := 0;
      ghost var batch := Batch(inst0, [], []);
      while i < |ids|
        invariant 0 <= i <= |ids|
        invariant Valid() && avail == availableDb.overlays
        invariant batch == AddBatch(inst0, avail, ids[..i], enable)
        invariant installedDb.overlays == batch.installed && results == batch.results
        invariant errorMessages == errs0 + batch.errors
      {
        var result := AddOne(ids[i], enable, errs0, batch);
        PrefixStep(ids, i);
        batch := AddStep(batch, avail, ids[i], enable);
        results := results + [result];
        i := i + 1;
      }
      assert ids[..i] == ids;
      ok := false !in results;
    }

    /** One pass of the loop of `delete_repos`, for `id`. */
    method DeleteOne(id: string, disable: string -> Outcome, ghost errs0: seq<ErrorEntry>, ghost b: Batch)
      returns (result: bool)
      requires Valid()
      requires installedDb.overlays == b.installed && errorMessages == errs0 + b.errors
      modifies this`errorMessages, this`installedIds, installedDb`overlays
      ensures Valid()
      ensures var next := DeleteStep(b, availableDb.overlays, id, disable);
        && installedDb.overlays == next.installed
        && errorMessages == errs0 + next.errors
        && next.results == b.results + [result]
    {
      ghost var avail := availableDb.overlays;
      if !IsInstalled(id) {
        result := true;
        assert DeleteStep(b, avail, id, disable) == b.(results := b.results + [true]);
      } else if !IsRepo(id) {
        Error(1, UnknownRepo(id));
        result := false;
        AppendTwice(errs0, b.errors, [ErrorEntry(1, UnknownRepo(id))]);
      } else {
        var outcome := disable(id);
        match outcome {
          case Done =>
            installedDb.overlays := installedDb.overlays - {id};
            result := true;
            assert NameKeyed(installedDb.overlays);
          case Failed(reason) =>
            Error(ERROR_INTERNAL_ERROR, DisableFailed(id, reason));
            result := false;
            AppendTwice(errs0, b.errors, [ErrorEntry(ERROR_INTERNAL_ERROR, DisableFailed(id, reason))]);
        }
        installedIds := installedDb.ListIds();
        assert ListsInOrder(installedIds, installedDb.overlays.Keys);
      }
    }

    /** `delete_repos`: `disable` is DB.delete's outcome per id. */
    method DeleteRepos(repos: RepoArg, disable: string -> Outcome) returns (ok: bool)
      requires Valid()
      modifies this`errorMessages, this`installedIds, installedDb`overlays
      ensures Valid()
      ensures var ids := CheckedIds(repos, "delete_repo");
        var out := DeleteBatch(old(installedDb.overlays), availableDb.overlays, ids.0, disable);
        && installedDb.overlays == out.installed
        && errorMessages == old(errorMessages) + ids.1 + out.errors
        && (ok <==> false !in out.results)
    {
      var ids := CheckRepoType(repos, "delete_repo");
      ghost var inst0 := installedDb.overlays;
      ghost var errs0 := errorMessages;
      ghost var avail := availableDb.overlays;
      var results: seq<bool> := [];
      var i := 0;
      ghost var batch := Batch(inst0, [], []);
      while i < |ids|
        invariant 0 <= i <= |ids|
        invariant Valid() && avail == availableDb.overlays
        invariant batch == DeleteBatch(inst0, avail, ids[..i], disable)
        invariant installedDb.overlays == batch.installed && results == batch.results
        invariant errorMessages == errs0 + batch.errors
      {
        var result := DeleteOne(ids[i], disable, errs0, batch);
        PrefixStep(ids, i);
        batch := DeleteStep(batch, avail, ids[i], disable);
        results := results + [result];
        i := i + 1;
      }
      assert ids[..i] == ids;
      ok := false !in results;
    }

    /** The loop shared by `get_all_info` and `get_info_str`. */
    method Lookup(ids: seq<string>, kind: InfoKind) returns (result: map<string, InfoValue>)
      requires Valid()
      modifies this`errorMessages
      ensures var out := LookupBatch(availableDb.overlays, ids, kind, views);
        result == out.0 && errorMessages == old(errorMessages) + out.1
    {
      result := map[];
      var i := 0;
      ghost var avail := availableDb.overlays;
      while i < |ids|
        invariant 0 <= i <= |ids|
        invariant Valid() && avail == availableDb.overlays
        invariant var out := LookupBatch(avail, ids[..i], kind, views);
          result == out.0 && errorMessages == old(errorMessages) + out.1
      {
        var id := ids[i];
        PrefixStep(ids, i);
        ghost var prev := LookupBatch(avail, ids[..i], kind, views);
        assert LookupBatch(avail, ids[..i + 1], kind, views) == LookupStep(prev, avail, id, kind, views);
        if !IsRepo(id) {
          Error(1, UnknownRepo(id));
          result := result[id := Placeholder];
        }
        // No `continue`: `select` runs for an unknown id too and raises again.
        var selected := availableDb.Select(id);
        if selected.Failure? {
          Error(2, NoSuchOverlay(selected.error));
          result := result[id := Placeholder];
        } else {
          result := result[id := Describe(kind, views, selected.value)];
        }
        i := i + 1;
      }
      assert ids[..i] == ids;
    }

    /** `get_all_info`. */
    method GetAllInfo(repos: RepoArg) returns (result: map<string, InfoValue>)
      requires Valid()
      modifies this`errorMessages
      ensures var ids := CheckedIds(repos, "get_info");
        var out := LookupBatch(availableDb.overlays, ids.0, AllInfo, views);
        result == out.0 && errorMessages == old(errorMessages) + ids.1 + out.1
    {
      var ids := CheckRepoType(repos, "get_info");
      result := Lookup(ids, AllInfo);
    }

    /** `get_info_str`. */
    method GetInfoStr(repos: RepoArg) returns (result: map<string, InfoValue>)
      requires Valid()
      modifies this`errorMessages
      ensures var ids := CheckedIds(repos, "get_info");
        var out := LookupBatch(availableDb.overlays, ids.0, InfoString, views);
        result == out.0 && errorMessages == old(errorMessages) + ids.1 + out.1
    {
      var ids := CheckRepoType(repos, "get_info");
      result := Lookup(ids, InfoString);
    }

    /**
     * One pass of the loop of `sync`, for `id`: the three lists after it,
     * and the error it may queue (`errs` are the errors of the batch so far).
     */
    method SyncOne(id: string, adapter: string -> Outcome, success: seq<Report>, warnings: seq<Warning>,
                   fatals: seq<Report>, ghost errs0: seq<ErrorEntry>, ghost errs: seq<ErrorEntry>)
      returns (success': seq<Report>, warnings': seq<Warning>, fatals': seq<Report>)
      requires Valid() && errorMessages == errs0 + errs
      modifies this`errorMessages
      ensures var next := SyncStep(SyncBatch(success, warnings, fatals, errs), installedDb.overlays,
                                   availableDb.overlays, id, adapter);
        && success' == next.success && warnings' == next.warnings && fatals' == next.fatals
        && errorMessages == errs0 + next.errors
    {
      success', warnings', fatals' := success, warnings, fatals;
      ghost var inst, avail := installedDb.overlays, availableDb.overlays;
      var installed := installedDb.Select(id);
      if installed.Failure? {
        Error(1, SyncSelectFailed(id, installed.error));
        AppendTwice(errs0, errs, [ErrorEntry(1, SyncSelectFailed(id, UnknownOverlay(id)))]);
        assert WarningFor(inst, avail, id) == [];
      } else {
        var odb := installed.value;
        var available := availableDb.Select(id);
        if available.Failure? {
          warnings' := warnings + [NotInRemote(id)];
          assert WarningFor(inst, avail, id) == [NotInRemote(id)];
        } else {
          var currentSrc := odb.sources[0].src;
          var availableSrcs := SourceSet(available.value);
          if currentSrc !in availableSrcs {
            warnings' := warnings + [DriftWarning(id, currentSrc, availableSrcs)];
            assert WarningFor(inst, avail, id) == [DriftWarning(id, currentSrc, availableSrcs)];
          } else {
            assert WarningFor(inst, avail, id) == [];
          }
        }
        match adapter(id) {
          case Done =>
            success' := success + [Synced(id)];
          case Failed(reason) =>
            fatals' := fatals + [SyncFailed(id, reason)];
        }
      }
    }

    /** The loop of `sync` over the ids. */
    method SyncIds(ids: seq<string>, adapter: string -> Outcome)
      returns (success: seq<Report>, warnings: seq<Warning>, fatals: seq<Report>)
      requires Valid()
      modifies this`errorMessages
      ensures Valid()
      ensures var out := SyncBatchOf(installedDb.overlays, availableDb.overlays, ids, adapter);
        && success == out.success && warnings == out.warnings && fatals == out.fatals
        && errorMessages == old(errorMessages) + out.errors
    {
      ghost var errs0 := errorMessages;
      ghost var inst := installedDb.overlays;
      ghost var avail := availableDb.overlays;
      success, warnings, fatals := [], [], [];
      ghost var batch := SyncBatch([], [], [], []);
      var i := 0;
      while i < |ids|
        invariant 0 <= i <= |ids|
        invariant Valid() && inst == installedDb.overlays && avail == availableDb.overlays
        invariant batch == SyncBatchOf(inst, avail, ids[..i], adapter)
        invariant success == batch.success && warnings == batch.warnings && fatals == batch.fatals
        invariant errorMessages == errs0 + batch.errors
      {
        success, warnings, fatals := SyncOne(ids[i], adapter, success, warnings, fatals, errs0, batch.errors);
        PrefixStep(ids, i);
        batch := SyncStep(batch, inst, avail, ids[i], adapter);
        i := i + 1;
      }
      assert ids[..i] == ids;
    }

    /**
     * `sync`: `adapter` is DB.sync's outcome per id. It answers False, and
     * keeps the previous `sync_results`, exactly when `output_results` is
     * set and some sync failed; otherwise it stores the three lists. The
     * printed warnings are their Text(); as written a drift warning makes
     * that loop raise instead (see SyncAnswerAsWritten).
     */
    method Sync(repos: RepoArg, outputResults: bool, adapter: string -> Outcome) returns (ok: bool)
      requires Valid()
      modifies this`errorMessages, this`syncResults
      ensures Valid()
      ensures var ids := CheckedIds(repos, "sync");
        var out := SyncBatchOf(installedDb.overlays, availableDb.overlays, ids.0, adapter);
        && errorMessages == old(errorMessages) + ids.1 + out.errors
        && (ok <==> !(outputResults && out.fatals != []))
        && syncResults == if ok then Some(SyncResults(out.success, out.warnings, out.fatals)) else old(syncResults)
    {
      var ids := CheckRepoType(repos, "sync");
      assert Valid();
      var success, warnings, fatals := SyncIds(ids, adapter);
      if outputResults && fatals != [] {
        return false;
      }
      syncResults := Some(SyncResults(success, warnings, fatals));
      return true;
    }
  }
}
