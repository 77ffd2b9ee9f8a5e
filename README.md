# layman overlay catalog and API, modelled in Dafny

layman manages Gentoo overlays: third-party package repositories that are
listed in XML catalogs and synced with git, rsync, svn and the like. This
project models two cooperating parts of it.

- **The overlay catalog** (`DbBase`, `layman/dbbase.py`): a dictionary from
  overlay name to overlay. It is filled by reading XML documents and dict
  records. It answers `select`, `list`, `list_ids` and equality, and is
  written back to a file.
- **The API object** (`LaymanAPI`, `layman/api.py`): it holds the installed
  and the available catalog, each with a sorted snapshot of its ids. It
  normalises batch arguments, adds and deletes overlays, builds info
  records, and classifies a sync batch into success, warning and fatal
  lists. It also keeps a drainable error queue.

The files:

- `wrappers.dfy`: Option and Result.
- `sequences.dfy`: two small sequence facts the loops step through.
- `ordering.dfy`: Python's string ordering. It also holds `sorted` for key
  sets (`SortedIds`) and for rows under a key function (`SortBy`, an
  insertion sort).
- `overlays.dfy`: the overlay record. `sources` is non-empty, and
  `sources[0]` is the primary source. The renderings and
  classifications from `overlay.py` are a `Views` value of functions.
- `dbbase.dfy`: the catalog.
  - The merge semantics of reading, as functions and lemmas.
  - The `Catalog` class, whose methods update its `overlays` map in place.
- `api.dfy`: the API.
  - Each batch operation is a step function folded over the ids, with lemmas
    stating what a whole batch does.
  - The `LaymanApi` class, whose loops are proved against those folds.

XML is abstract:

- A parsed document is its `overlay` elements followed by its `repo`
  elements, each already built into an overlay.
- A document the parser rejects is represented by its expat error.
- Collaborator calls whose outcome cannot be seen are parameters. `DB.add`,
  `DB.delete` and `DB.sync` are each a function from id to `Done` or
  `Failed(reason)`. A repeated id therefore gets the same outcome on each
  attempt (see "## Left out"). `RemoteDB.cache` takes no id, so it is a single
  `Done` or `Failed(reason)` value.
- `os.path.exists` and file reading are the parameters `present` and `load`.

Error messages are structured values. `ErrorText.Text()`,
`UnknownOverlay.Message()`, `Report.Message()` and `Warning.Text()` render
the exact strings the code formats.

## Model

| member | source | states |
|---|---|---|
| Ordering.SortedIds | layman/dbbase.py:290-293 | `sorted` of a key set: strictly ascending, every key exactly once, the same size as the set |
| Ordering.SortBy | layman/dbbase.py:286 | `sorted(rows, key=...)`: non-decreasing by the key and a permutation of its input |
| DbBase.MakeBrokenCatalog | layman/dbbase.py:60-69 | BrokenOverlayCatalog keeps the origin and the line, reports column = parser offset + 1, and has an empty hint exactly when none was given |
| DbBase.Entries | layman/dbbase.py:152-153 | a document's entries are its `overlay` elements, in order, followed by its `repo` elements |
| DbBase.Merge | layman/dbbase.py:155-159 | storing entries under their names keeps every overlay filed under its own name |
| DbBase.MergeLastWins | layman/dbbase.py:152-159 | reading adds exactly the entries' names; a name no entry carries keeps its overlay; an entry that no later entry shares a name with is what its name maps to (last writer wins, whole overlay replaced) |
| DbBase.MergeAppend | layman/dbbase.py:95-99 | reading one document and then another is reading their entries in sequence |
| DbBase.LoadIsMerge | layman/dbbase.py:95-99 | when every existing file parses, loading skips missing paths and merges all entries in path order, so a later file overwrites an earlier one |
| DbBase.Serialise | layman/dbbase.py:208-209 | `write` builds a root holding one element per overlay of the catalog and nothing else |
| DbBase.SerialisedEntries | layman/dbbase.py:208-209 | `write` emits one element per overlay, in ascending name order, each carrying its own name |
| DbBase.RoundTripKeys | layman/dbbase.py:190-218 | reading back the written file yields exactly the catalog's names |
| DbBase.RoundTripAt | layman/dbbase.py:190-218 | each name reads back as the overlay it had |
| DbBase.WriteReadRoundTrip | layman/dbbase.py:190-218 | writing the catalog and reading the file back yields the same catalog |
| DbBase.Selected | layman/dbbase.py:274-276 | the overlays `list` selects: every overlay when `repos` is empty, otherwise exactly those whose own name is in `repos` |
| DbBase.ListedRows | layman/dbbase.py:274-276 | `list` shows one row per overlay whose own name is in `repos`, or one per overlay when `repos` is empty |
| DbBase.Catalog.Empty | layman/dbbase.py:91 | a new catalog is empty |
| DbBase.Catalog.Open | layman/dbbase.py:81-99 | the constructor reads each existing path in order; it ends with the merged catalog, or with the first broken document's error, exactly as LoadPaths says |
| DbBase.Catalog.Read | layman/dbbase.py:134-160 | a malformed document changes nothing and reports BrokenOverlayCatalog; a well-formed one merges its overlay then repo entries by name |
| DbBase.Catalog.AddNew | layman/dbbase.py:163-175 | XML first, then the dict records, a single dict wrapped into a list; a broken document stops before the records and changes nothing |
| DbBase.DictRecords | layman/dbbase.py:169-172 | the records of `from_dict`: none when absent, a single dict wrapped into a one-element list, a list kept as it is |
| DbBase.Catalog.AddFromDict | layman/dbbase.py:178-187 | each record is stored under its name, in order |
| DbBase.Catalog.Write | layman/dbbase.py:190-218 | the written document reads back as this catalog |
| DbBase.Catalog.Select | layman/dbbase.py:223-235 | the unknown-overlay error for that name exactly when the name is not a key, otherwise the stored overlay unchanged |
| DbBase.Catalog.ListIds | layman/dbbase.py:290-293 | exactly the key set, ascending, without duplicates |
| DbBase.Catalog.List | layman/dbbase.py:272-288 | rows sorted by lower-cased summary, a permutation of the selected overlays' `(summary, supported, official)` rows, one per selected name |
| DbBase.Catalog.Equals | layman/dbbase.py:102-106 | True exactly when both catalogs are equal; False only when some shared name maps to different overlays; KeyError only on a name that is on one side alone; never KeyError when the name sets agree |
| DbBase.Catalog.NotEquals | layman/dbbase.py:109-110 | the negation of `__eq__`, raising where it raises: False exactly when both catalogs are equal; True only when some shared name maps to different overlays; KeyError only on a name that is on one side alone; never KeyError when the name sets agree |
| Api.CheckedIds | layman/api.py:97-107 | a string becomes a one-element list and a list is kept; any other type gives no ids and exactly one code-2 error, which is queued exactly then |
| Api.LaymanApi.CheckRepoType | layman/api.py:97-107 | returns CheckedIds' ids and appends its errors to the queue |
| Api.AddBatchInstalls | layman/api.py:149-166 | add_repos keeps every installed overlay, installs exactly the ids that are available and enabled without error, with the available definition, and nothing else |
| Api.AddBatchResults | layman/api.py:151-165 | the result for each id is False exactly when the id is not installed and is unknown or fails to enable |
| Api.AddBatchErrors | layman/api.py:155-164 | the queue gains, in batch order, one entry per failing occurrence: `(1, UNKNOWN_REPO_ID)` for an unknown id, `(-2, "Failed to enable repository ...")` for a failed add, and nothing else |
| Api.AddBatchAnswers | layman/api.py:149-169 | one result per id, False exactly for a failing id; the overall answer is True exactly when every id was installed already or has been installed now; the queued errors are exactly those of AddBatchErrors, present exactly when some result is False |
| Api.AddIdempotent | layman/api.py:152-153 | adding ids that are all installed answers True, changes nothing and queues nothing |
| Api.DeleteBatchRemoves | layman/api.py:118-135 | delete_repos removes exactly the installed ids that are available and disabled without error; other overlays keep their value |
| Api.DeleteBatchResults | layman/api.py:120-134 | the result for each id is False exactly when the id is installed and is unknown or fails to disable |
| Api.DeleteBatchErrors | layman/api.py:124-133 | the queue gains, in batch order, one entry per failing occurrence: `(1, UNKNOWN_REPO_ID)` for an unknown id, `(-2, "Failed to disable repository ...")` for a failed delete, and nothing else |
| Api.DeleteBatchAnswers | layman/api.py:118-138 | one result per id, False exactly for a failing id; True exactly when every id was not installed or has been removed; the queued errors are exactly those of DeleteBatchErrors, present exactly when some result is False |
| Api.DeleteNotInstalledIsNoOp | layman/api.py:121-122 | deleting ids none of which is installed answers True, changes nothing and queues nothing |
| Api.AddBreakSkipsLaterIds | layman/api.py:151-158 | the loop as written answers True for ["a", "b"] without installing the available "b"; the per-id batch installs it |
| Api.DeleteBreakSkipsLaterIds | layman/api.py:120-127 | the loop as written answers True for ["a", "b"] and keeps the installed "b"; the per-id batch removes it |
| Api.Describe | layman/api.py:211-255 | the value for a known id: for `get_all_info` a record carrying its name, all source URIs and the primary source type; for `get_info_str` the `(str, official, supported)` tuple; both carry `is_official` and `is_supported` |
| Api.LookupStep | layman/api.py:201-209 | one id of the lookup loop sets the entry for that id only; it leaves the queue as it was exactly when the id is available, and otherwise appends to it |
| Api.LookupErrors | layman/api.py:202-208 | for each unknown occurrence, in batch order, the queue gains `(1, UNKNOWN_REPO_ID)` and then `(2, "Error: " + unknown-overlay message)` for that id, and nothing else |
| Api.LookupCovers | layman/api.py:201-224 | every requested id, and only those, gets an entry: the description of its available overlay, or `('', False, False)`; the queued errors are exactly those of LookupErrors |
| Api.AllInfoRecords | layman/api.py:211-224 | a known id's record carries its name, all its source URIs in order, and the type of its primary source; an unknown id gets the placeholder |
| Api.NumberedLines | layman/api.py:294 | one line per candidate URI, the i-th reading `"  " + (i + 1) + ". " + URI` |
| Api.DriftWarning | layman/api.py:286-312 | the drift warning names the id and the installed primary URI; plural is '' exactly when there is one candidate URI (then the candidates text is that URI indented), otherwise 's' and the candidates are the numbered lines joined with newlines |
| Api.WarningFor | layman/api.py:279-312 | at most one warning per id, carrying that id; there is one exactly when the id is installed and either not available or drifted, and it is the missing-remotely kind exactly when the id is not available |
| Api.SyncSuccesses | layman/api.py:314-316 | the success list holds exactly the installed ids whose sync succeeds, in batch order |
| Api.SyncFatals | layman/api.py:317-320 | the fatal list holds exactly the installed ids whose sync fails, in batch order |
| Api.SyncWarnings | layman/api.py:279-312 | the warning list holds exactly the installed ids that are missing remotely or whose primary URI is not among the available URIs, in batch order |
| Api.SyncWarningKinds | layman/api.py:279-312 | a warning is the missing-remotely kind exactly when the id is not available, and otherwise the drift warning of the installed primary URI against the available URIs |
| Api.SyncErrors | layman/api.py:273-277 | the queue gains, in batch order, `(1, "Sync(), failed to select <id> overlay. ...")` for each occurrence of an id that is not installed, and nothing else |
| Api.AsWrittenTuple | layman/api.py:284-312 | the tuple the code appends for a warning, carrying its id: a pair with its message for the missing-remotely kind; exactly for the drift kind, the 3-tuple of the unformatted template and its parameters (repo name, current source, candidates, plural) |
| Api.DriftWarningBreaksOutput | layman/api.py:296-331 | on a concrete one-id batch with a drifted source and a successful sync, the output loop as written raises ValueError on the 3-tuple, while the intended warning is the filled-in template |
| Api.SyncExactlyOne | layman/api.py:272-320 | an installed id lands in exactly one of success and fatals; an id that is not installed lands in none of success, warnings and fatals |
| Api.LaymanApi.constructor | layman/api.py:46-71 | both catalogs loaded with sorted id snapshots, an empty error queue, no sync results |
| Api.LaymanApi.IsRepo | layman/api.py:76-83 | membership in the available id snapshot, which is membership in the available catalog |
| Api.LaymanApi.IsInstalled | layman/api.py:86-93 | membership in the installed id snapshot, which is membership in the installed catalog |
| Api.LaymanApi.Error | layman/api.py:377-385 | appends `(code, message)` to the queue, in call order |
| Api.LaymanApi.GetErrors | layman/api.py:388-398 | a non-empty queue is returned and emptied; an empty queue gives None |
| Api.LaymanApi.GetAvailable | layman/api.py:355-360 | on reload, replaces the available catalog; returns its keys, ascending and without duplicates |
| Api.LaymanApi.GetInstalled | layman/api.py:363-368 | the same for the installed catalog |
| Api.LaymanApi.Reload | layman/api.py:371-374 | both catalogs replaced, snapshots consistent |
| Api.LaymanApi.FetchRemoteList | layman/api.py:344-352 | True exactly when the cache refresh succeeds; otherwise a code -1 error is queued |
| Api.LaymanApi.AddOne | layman/api.py:151-166 | one pass of the add loop performs one AddStep on the installed catalog, the results and the queue |
| Api.LaymanApi.AddRepos | layman/api.py:141-169 | the installed catalog, the queue and the answer are those of AddBatch after CheckedIds (see AddBatchInstalls, AddBatchAnswers) |
| Api.LaymanApi.DeleteOne | layman/api.py:120-135 | one pass of the delete loop performs one DeleteStep |
| Api.LaymanApi.DeleteRepos | layman/api.py:110-138 | the installed catalog, the queue and the answer are those of DeleteBatch after CheckedIds (see DeleteBatchRemoves, DeleteBatchAnswers) |
| Api.LaymanApi.Lookup | layman/api.py:201-224 | the result dictionary and the queued errors are those of LookupBatch (see LookupCovers) |
| Api.LaymanApi.GetAllInfo | layman/api.py:172-226 | CheckedIds' errors, then LookupBatch of info records |
| Api.LaymanApi.GetInfoStr | layman/api.py:229-257 | CheckedIds' errors, then LookupBatch of `(text, official, supported)` tuples |
| Api.LaymanApi.SyncOne | layman/api.py:273-320 | one pass of the sync loop performs one SyncStep on the three lists and the queue |
| Api.LaymanApi.SyncIds | layman/api.py:272-320 | the three lists and the queued errors are those of SyncBatchOf |
| Api.LaymanApi.Sync | layman/api.py:260-341 | answers False exactly when `output_results` is set and some sync failed; stores the three lists exactly when it answers True; the queue gains CheckedIds' and the batch's errors (the intended end; see Findings for the raise as written) |

## Left out

- XML text: parsing (`ET.fromstring`), `indent`, `to_xml` and writing the file are abstract. A document is a sequence of built overlays, and `write` produces the document it serialises.
- File and network I/O. Reading a missing file is not modelled; `present` and `load` are parameters. The sync itself (`DB.sync`) and `RemoteDB.cache` are outcome parameters.
- `DB.add` and `DB.delete` (db.py) are not part of this model. Each is modelled as a write-through update of the installed catalog plus an outcome parameter. The `get_installed(reload=True)` after each attempt is modelled as a refresh of the id snapshot of that same catalog, because a fresh DB reads back what was written.
- Construction of `DB`/`RemoteDB` from the configuration: the constructor and `GetAvailable`/`GetInstalled`/`Reload` take the freshly read catalogs as arguments. The "no catalog yet" branch of `get_available`/`get_installed` cannot arise, because the constructor loads both.
- layman/overlays/overlay.py is not part of this model: `get_infostr`, `short_list`, `__str__`, `is_official` and `is_supported` are the uninterpreted functions of `Views`. Overlay equality is structural equality of the record.
- `_broken_catalog_hint`: the hint is a parameter, as a subclass supplies it. DbBase's own version only raises NotImplementedError.
- Output and printing: `self.output.*`, the stderr echo in `_error`, `create_fd`, and the `Layman` subclass in layman/__init__.py.
- Api.ErrorEntry: the queue stores the code and the structured message. The source stores the pair `("Error: %d," % code, message)`, so the header text is not rendered.
- Ordering.SortBy: Python's `sorted` is stable; the contract states order by key and permutation, not that equal keys keep their input order. Nothing in the listing depends on it, because its input order is itself a modelling choice.
- Ordering.SortedIds: iteration over Python sets and dicts is taken in ascending order. This applies to `list`, `write` and the drift candidates. `__eq__` keeps an arbitrary order.
- Ordering.Lower: lower-cases ASCII letters only, not the full Unicode case mapping of `str.lower()`.
- Api.CheckedIds: `_check_repo_type` is a staticmethod that calls `self._error`, a NameError on the unsupported-type path. The model queues the intended error and returns no ids.
- DbBase.UnknownOverlay: as written, `UnknownOverlayException.__init__` passes an undefined `message`, which raises NameError. The model raises the intended error with the text UnknownOverlayMessage(name).
- DbBase.RowOf: the verbose branch of `list` calls `append` with three arguments, which raises TypeError. The model appends the intended `(info, supported, official)` tuple.
- Api.Warning: a drift warning's Text() is the template filled in with its parameters (DriftMessage). As written, `sync` appends the unformatted 3-tuple; that case is under Findings.
- Api.LaymanApi.Sync: with `output_results` false the code answers True even when there are fatals, because the `return False` sits inside `if output_results:` (api.py:322-341). The model follows the code.
- Api.SyncStep: an id that is not installed only queues an error, because the code `continue`s after the failed `select` (api.py:275-277). It lands in none of the three lists.
- Api.SyncExactlyOne: the adapter outcome is a function of the id, so a repeated id is synced with the same outcome every time. The code calls `DB.sync` again for each occurrence (api.py:315), so `sync(["x", "x"])` can put x in both `success` and `fatals` when the two calls end differently. The lemma holds only under this restriction.
- Api.SyncSuccesses: the same restriction; a repeated id's occurrences all succeed or all fail.
- Api.SyncFatals: the same restriction as SyncSuccesses.
- Api.AddBatchInstalls: the enable outcome is a function of the id, so a repeated id gets the same outcome on each attempt. The code calls `DB.add` again for each occurrence (api.py:160), so `add_repos(["b", "b"])` where the first add fails and the second succeeds cannot be expressed.
- Api.AddBatchResults: the same restriction as AddBatchInstalls; every attempt of a repeated id answers alike.
- Api.DeleteBatchRemoves: the disable outcome is a function of the id, so a repeated id gets the same outcome on each attempt, while the code calls `DB.delete` again for each occurrence (api.py:129).
- Api.DeleteBatchResults: the same restriction as DeleteBatchRemoves.
- `sync`'s `self.config['quiet']` argument to the adapter is not modelled.

## Findings

| source | as written | input that shows it | evidently intended | confidence | as-written member | corrected member |
|---|---|---|---|---|---|---|
| layman/api.py:151-158 | `add_repos` `break`s after an already-installed id and after an unknown id | installed {a}, available {a, b}, `add_repos(["a", "b"])`: answers True and never installs b | every id attempted independently, with an overall answer aggregated over all of them | high (the `break` follows the no-op and unknown-id branches, so the rest of the batch is dropped while the answer still aggregates over `results`; not executed) | Api.AddBatchAsWritten, Api.AddBreakSkipsLaterIds | Api.AddBatch, Api.AddBatchInstalls, Api.AddBatchAnswers |
| layman/api.py:120-127 | `delete_repos` `break`s after a not-installed id and after an unknown id | installed {b}, available {a, b}, `delete_repos(["a", "b"])`: answers True and keeps b | every id attempted independently, with an overall answer aggregated over all of them | high (the `break` follows the no-op and unknown-id branches, so the rest of the batch is dropped while the answer still aggregates over `results`; not executed) | Api.DeleteBatchAsWritten, Api.DeleteBreakSkipsLaterIds | Api.DeleteBatch, Api.DeleteBatchRemoves, Api.DeleteBatchAnswers |
| layman/api.py:296-331 | the drift warning is appended as the 3-tuple `(id, template, params)`, and the output loop `for id, result in warnings` unpacks two names | installed x from source a, available x at source b, `sync(["x"])` with `output_results` True and a successful sync: ValueError, no answer, `sync_results` not stored | the warning appended as `(id, template % params)`, so `sync` answers True and stores its lists | high (the other warning kind is a pair, and the loop is written for pairs; not executed) | Api.SyncAnswerAsWritten, Api.DriftWarningBreaksOutput | Api.DriftMessage, Api.LaymanApi.Sync |
