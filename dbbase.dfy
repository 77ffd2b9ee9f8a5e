/**
 * The overlay catalog of layman/dbbase.py: a dictionary from overlay name to
 * overlay, filled by reading XML documents and dict records, queried by
 * name, listed, compared and written back.
 *
 * XML text is abstract here: a parsed document is the sequence of its
 * `overlay` elements followed by its `repo` elements, each already built
 * into an overlay, and a document the parser rejects is its expat error.
 */
module DbBase {
  import opened Wrappers
  import opened Ordering
  import opened Overlays
  import opened Sequences

  /** The text of UnknownOverlayException for the overlay `ovl`. */
  function UnknownOverlayMessage(ovl: string): string
  {
    "Overlay \"" + ovl + "\" does not exist."
  }

  /**
   * UnknownOverlayException. As written, its __init__ hands an undefined name
   * `message` to the base class, so raising it raises a NameError; the model
   * raises the evidently intended error, whose text is
   * UnknownOverlayMessage(name).
   */
  datatype UnknownOverlay = UnknownOverlay(name: string)
  {
    function Message(): string
    {
      UnknownOverlayMessage(name)
    }
  }

  /** What the XML parser reports: a 1-based line and a 0-based offset. */
  datatype ExpatError = ExpatError(lineno: int, offset: int)

  /** BrokenOverlayCatalog: the fields its message is built from. */
  datatype BrokenCatalog = BrokenCatalog(origin: string, line: int, column: int, hint: string)

  function MakeBrokenCatalog(origin: string, e: ExpatError, hint: Option<string>): (b: BrokenCatalog)
    ensures b.origin == origin && b.line == e.lineno
    ensures b.column == e.offset + 1
    ensures b.hint == "" <==> hint.None?
  {
    BrokenCatalog(origin, e.lineno, e.offset + 1, if hint.None? then "" else "\nHint: " + hint.value)
  }

  datatype Document = Document(overlayElems: seq<Overlay>, repoElems: seq<Overlay>)

  /** `document.findall('overlay') + document.findall('repo')`. */
  function Entries(d: Document): (r: seq<Overlay>)
    ensures |r| == |d.overlayElems| + |d.repoElems|
    ensures r[..|d.overlayElems|] == d.overlayElems && r[|d.overlayElems|..] == d.repoElems
  {
    d.overlayElems + d.repoElems
  }

  /** The outcome of `ET.fromstring` on a document's text. */
  datatype Parsed = WellFormed(doc: Document) | Malformed(error: ExpatError)

  function Names(entries: seq<Overlay>): set<string>
  {
    set e | e in entries :: e.name
  }

  /** Every overlay is filed under its own name. */
  predicate NameKeyed(m: map<string, Overlay>)
  {
    forall k :: k in m ==> m[k].name == k
  }

  /** No later entry has the same name as entry `i`. */
  predicate LastNamed(entries: seq<Overlay>, i: int)
    requires 0 <= i < |entries|
  {
    forall j :: i < j < |entries| ==> entries[j].name != entries[i].name
  }

  /**
   * `self.overlays[ovl.name] = ovl` for each entry in turn, starting from `m`.
   */
  function Merge(m: map<string, Overlay>, entries: seq<Overlay>): (r: map<string, Overlay>)
    ensures NameKeyed(m) ==> NameKeyed(r)
    decreases |entries|
  {
    if entries == [] then m
    else
      var last := entries[|entries| - 1];
      Merge(m, entries[..|entries| - 1])[last.name := last]
  }

  /** Merging adds exactly the entries' names; names no entry carries keep their value. */
  lemma {:induction false} MergeKeys(m: map<string, Overlay>, entries: seq<Overlay>)
    ensures Merge(m, entries).Keys == m.Keys + Names(entries)
    ensures forall k :: k in m && k !in Names(entries) ==> Merge(m, entries)[k] == m[k]
    decreases |entries|
  {
    if entries != [] {
      var n := |entries| - 1;
      var init := entries[..n];
      assert entries == init + [entries[n]];
      assert Names(entries) == Names(init) + {entries[n].name};
      MergeKeys(m, init);
    }
  }

  /** An entry that no later entry renames over is what its name maps to. */
  lemma {:induction false} MergeLastEntry(m: map<string, Overlay>, entries: seq<Overlay>)
    ensures forall i :: 0 <= i < |entries| && LastNamed(entries, i) ==>
              entries[i].name in Merge(m, entries) && Merge(m, entries)[entries[i].name] == entries[i]
    decreases |entries|
  {
    if entries != [] {
      var n := |entries| - 1;
      var init := entries[..n];
      assert entries == init + [entries[n]];
      MergeLastEntry(m, init);
      forall i | 0 <= i < |entries| && LastNamed(entries, i)
        ensures entries[i].name in Merge(m, entries) && Merge(m, entries)[entries[i].name] == entries[i]
      {
        if i < n {
          assert LastNamed(init, i);
        }
      }
    }
  }

  /**
   * Merging is last-writer-wins by name: an entry no later entry renames over
   * is what its name maps to, and names no entry carries keep their value.
   */
  lemma MergeLastWins(m: map<string, Overlay>, entries: seq<Overlay>)
    ensures Merge(m, entries).Keys == m.Keys + Names(entries)
    ensures forall k :: k in m && k !in Names(entries) ==> Merge(m, entries)[k] == m[k]
    ensures forall i :: 0 <= i < |entries| && LastNamed(entries, i) ==>
              Merge(m, entries)[entries[i].name] == entries[i]
  {
    MergeKeys(m, entries);
    MergeLastEntry(m, entries);
  }

  /** Reading `a` and then `b` is reading `a + b`. */
  lemma {:induction false} MergeAppend(m: map<string, Overlay>, a: seq<Overlay>, b: seq<Overlay>)
    ensures Merge(m, a + b) == Merge(Merge(m, a), b)
    decreases |b|
  {
    if b != [] {
      var n := |b| - 1;
      var ab := a + b;
      assert ab[..|ab| - 1] == a + b[..n];
      assert ab[|ab| - 1] == b[n];
      MergeAppend(m, a, b[..n]);
      assert Merge(m, ab) == Merge(m, a + b[..n])[b[n].name := b[n]];
      assert Merge(Merge(m, a), b) == Merge(Merge(m, a), b[..n])[b[n].name := b[n]];
    } else {
      assert a + b == a;
    }
  }

  /**
   * The documents of `paths`, in order, as DbBase.__init__ reads them: a path
   * that does not exist is skipped, the first malformed document aborts.
   */
  function LoadPaths(m: map<string, Overlay>, paths: seq<string>, present: string -> bool,
                     load: string -> Parsed, hint: Option<string>): Result<map<string, Overlay>, BrokenCatalog>
    decreases |paths|
  {
    if paths == [] then Success(m)
    else if !present(paths[0]) then LoadPaths(m, paths[1..], present, load, hint)
    else match load(paths[0])
      case Malformed(e) => Failure(MakeBrokenCatalog(paths[0], e, hint))
      case WellFormed(doc) => LoadPaths(Merge(m, Entries(doc)), paths[1..], present, load, hint)
  }

  /** The entries of every existing path, in path order. */
  function AllEntries(paths: seq<string>, present: string -> bool, load: string -> Parsed): seq<Overlay>
    decreases |paths|
  {
    if paths == [] then []
    else
      (if present(paths[0]) && load(paths[0]).WellFormed? then Entries(load(paths[0]).doc) else [])
      + AllEntries(paths[1..], present, load)
  }

  /**
   * When every existing file parses, loading is one merge of all their
   * entries in path order, so a later file's entry overwrites an earlier
   * file's entry of the same name (MergeLastWins).
   */
  lemma {:induction false} LoadIsMerge(m: map<string, Overlay>, paths: seq<string>, present: string -> bool,
                                       load: string -> Parsed, hint: Option<string>)
    requires forall p :: p in paths && present(p) ==> load(p).WellFormed?
    ensures LoadPaths(m, paths, present, load, hint) == Success(Merge(m, AllEntries(paths, present, load)))
    decreases |paths|
  {
    if paths != [] {
      var first := if present(paths[0]) then Entries(load(paths[0]).doc) else [];
      MergeAppend(m, first, AllEntries(paths[1..], present, load));
      assert forall p :: p in paths[1..] ==> p in paths;
      LoadIsMerge(Merge(m, first), paths[1..], present, load, hint);
    }
  }

  /** The `from_dict` argument of `add_new`: absent, one dict, or a list of dicts. */
  datatype DictArg = NoDict | OneDict(record: Overlay) | DictList(records: seq<Overlay>)

  /** A single dict is wrapped into a one-element list. */
  function DictRecords(d: DictArg): (r: seq<Overlay>)
    ensures d.NoDict? ==> r == []
    ensures d.OneDict? ==> r == [d.record]
    ensures d.DictList? ==> r == d.records
  {
    match d
    case NoDict => []
    case OneDict(r) => [r]
    case DictList(rs) => rs
  }

  /** `write`: one element per overlay (in ascending name order) under the root. */
  function Serialise(m: map<string, Overlay>): (d: Document)
    ensures d.repoElems == []
    ensures |d.overlayElems| == |m|
    ensures forall i :: 0 <= i < |d.overlayElems| ==> d.overlayElems[i] in m.Values
  {
    var ids := SortedIds(m.Keys);
    Document(seq(|ids|, i requires 0 <= i < |ids| => m[ids[i]]), [])
  }

  /** The entries `write` emits: the overlay of each name, ascending. */
  lemma SerialisedEntries(m: map<string, Overlay>)
    requires NameKeyed(m)
    ensures var ids := SortedIds(m.Keys);
      var es := Entries(Serialise(m));
      |es| == |ids| && forall i :: 0 <= i < |ids| ==> es[i] == m[ids[i]] && es[i].name == ids[i]
  {
    var ids := SortedIds(m.Keys);
    assert Entries(Serialise(m)) == Serialise(m).overlayElems;
  }

  /** The entries `write` emits carry exactly the catalog's names. */
  lemma SerialisedNames(m: map<string, Overlay>)
    requires NameKeyed(m)
    ensures Names(Entries(Serialise(m))) == m.Keys
  {
    var ids := SortedIds(m.Keys);
    var es := Entries(Serialise(m));
    SerialisedEntries(m);
    forall k | k in Names(es)
      ensures k in m
    {
      var e :| e in es && e.name == k;
      var i :| 0 <= i < |es| && es[i] == e;
      assert ids[i] in ids;
    }
    forall k | k in m
      ensures k in Names(es)
    {
      var i :| 0 <= i < |ids| && ids[i] == k;
      assert es[i] in es && es[i].name == k;
    }
  }

  /** The file `write` produces holds exactly the catalog's names. */
  lemma RoundTripKeys(m: map<string, Overlay>)
    requires NameKeyed(m)
    ensures Merge(map[], Entries(Serialise(m))).Keys == m.Keys
  {
    MergeLastWins(map[], Entries(Serialise(m)));
    SerialisedNames(m);
  }

  /** Each name of the catalog reads back as the overlay it had. */
  lemma RoundTripAt(m: map<string, Overlay>, k: string)
    requires NameKeyed(m) && k in m
    ensures k in Merge(map[], Entries(Serialise(m)))
    ensures Merge(map[], Entries(Serialise(m)))[k] == m[k]
  {
    var ids := SortedIds(m.Keys);
    var es := Entries(Serialise(m));
    SerialisedEntries(m);
    MergeLastWins(map[], es);
    var i :| 0 <= i < |ids| && ids[i] == k;
    forall j | i < j < |es|
      ensures es[j].name != es[i].name
    {
      assert Less(ids[i], ids[j]);
      LessIrreflexive(ids[i]);
    }
    assert LastNamed(es, i);
    assert es[i].name == k && es[i] == m[k];
  }

  /** Writing a catalog and reading the file back yields the same catalog. */
  lemma {:induction false} WriteReadRoundTrip(m: map<string, Overlay>)
    requires NameKeyed(m)
    ensures Merge(map[], Entries(Serialise(m))) == m
  {
    var r := Merge(map[], Entries(Serialise(m)));
    RoundTripKeys(m);
    forall k | k in m
      ensures r[k] == m[k]
    {
      RoundTripAt(m, k);
    }
  }

  /** A row of `list`: (summary or full info, supported, official). */
  datatype Row = Row(summary: string, supported: bool, official: bool)

  /** The sort key of `list`: the lower-cased summary. */
  function SummaryKey(row: Row): string
  {
    Lower(row.summary)
  }

  function RowOf(o: Overlay, verbose: bool, width: int, views: Views): Row
  {
    // As written, the verbose branch calls `result.append` with three
    // arguments, a TypeError; the model appends the evidently intended tuple.
    if verbose then Row(views.infoStr(o), views.isSupported(o), views.isOfficial(o))
    else Row(views.shortList(o, width), views.isSupported(o), views.isOfficial(o))
  }

  /** The rows of the named overlays, in the order of `names`. */
  function RowsFor(m: map<string, Overlay>, names: seq<string>, verbose: bool, width: int, views: Views): seq<Row>
    requires forall n :: n in names ==> n in m
    decreases |names|
  {
    if names == [] then []
    else
      var n := |names| - 1;
      RowsFor(m, names[..n], verbose, width, views) + [RowOf(m[names[n]], verbose, width, views)]
  }

  lemma RowsForStep(m: map<string, Overlay>, names: seq<string>, i: nat, verbose: bool, width: int, views: Views)
    requires i < |names| && forall n :: n in names ==> n in m
    ensures RowsFor(m, names[..i + 1], verbose, width, views)
         == RowsFor(m, names[..i], verbose, width, views) + [RowOf(m[names[i]], verbose, width, views)]
  {
    PrefixStep(names, i);
  }

  lemma {:induction false} RowsForLength(m: map<string, Overlay>, names: seq<string>, verbose: bool, width: int, views: Views)
    requires forall n :: n in names ==> n in m
    ensures |RowsFor(m, names, verbose, width, views)| == |names|
    decreases |names|
  {
    if names != [] {
      var n := |names| - 1;
      assert forall x :: x in names[..n] ==> x in names;
      RowsForLength(m, names[..n], verbose, width, views);
    }
  }

  /** Any reordering of the rows of the selection has one row per selected name. */
  lemma ListedRows(m: map<string, Overlay>, repos: seq<string>, verbose: bool, width: int, views: Views, rows: seq<Row>)
    requires multiset(rows) == multiset(RowsFor(m, SortedIds(Selected(m, repos)), verbose, width, views))
    ensures |rows| == |Selected(m, repos)|
    ensures repos == [] ==> |rows| == |m|
  {
    var selection := SortedIds(Selected(m, repos));
    RowsForLength(m, selection, verbose, width, views);
    assert |rows| == |multiset(rows)|;
    if repos == [] {
      assert Selected(m, repos) == m.Keys;
      assert |m.Keys| == |m|;
    }
  }

  /**
   * The keys of the overlays `list(repos)` shows: those whose own name is in
   * `repos`, or all when `repos` is empty.
   */
  function Selected(m: map<string, Overlay>, repos: seq<string>): (r: set<string>)
    ensures r <= m.Keys
    ensures repos == [] ==> r == m.Keys
    ensures forall n :: n in m && m[n].name in repos ==> n in r
    ensures forall n :: n in r <==> n in m && (repos == [] || m[n].name in repos)
  {
    set n | n in m && (repos == [] || m[n].name in repos)
  }

  /** DbBase: the catalog object whose `overlays` dictionary its methods fill. */
  class Catalog {
    var overlays: map<string, Overlay>

    ghost predicate Valid()
      reads this
    {
      NameKeyed(overlays)
    }

    /** `self.overlays = {}`: the state before any path is read. */
    constructor Empty()
      ensures Valid() && overlays == map[]
    {
      overlays := map[];
    }

    /**
     * DbBase.__init__: reads each existing path in order (read_file), and
     * fails with the first broken document's error.
     */
    static method Open(paths: seq<string>, present: string -> bool, load: string -> Parsed, hint: Option<string>)
      returns (r: Result<Catalog, BrokenCatalog>)
      ensures r.Success? ==> fresh(r.value) && r.value.Valid()
      ensures r.Success? ==> LoadPaths(map[], paths, present, load, hint) == Success(r.value.overlays)
      ensures r.Failure? ==> LoadPaths(map[], paths, present, load, hint) == Failure(r.error)
    {
      var c := new Catalog.Empty();
      var i := 0;
      while i < |paths|
        invariant 0 <= i <= |paths|
        invariant c.Valid()
        invariant LoadPaths(c.overlays, paths[i..], present, load, hint) == LoadPaths(map[], paths, present, load, hint)
      {
        assert paths[i..][1..] == paths[i + 1..];
        if present(paths[i]) {
          var err := c.Read(load(paths[i]), paths[i], hint);
          if err.Some? {
            return Failure(err.value);
          }
        }
        i := i + 1;
      }
      return Success(c);
    }

    /**
     * `read`: parses a document and stores each of its entries under its
     * name, a later entry replacing an earlier one wholesale. `hint` is what
     * the subclass's `_broken_catalog_hint` supplies.
     */
    method Read(parsed: Parsed, origin: string, hint: Option<string>) returns (err: Option<BrokenCatalog>)
      requires Valid()
      modifies this
      ensures Valid()
      ensures parsed.Malformed? ==>
                err == Some(MakeBrokenCatalog(origin, parsed.error, hint)) && overlays == old(overlays)
      ensures parsed.WellFormed? ==> err == None && overlays == Merge(old(overlays), Entries(parsed.doc))
    {
      if parsed.Malformed? {
        return Some(MakeBrokenCatalog(origin, parsed.error, hint));
      }
      var entries := Entries(parsed.doc);
      var i := 0;
      while i < |entries|
        invariant 0 <= i <= |entries|
        invariant overlays == Merge(old(overlays), entries[..i])
      {
        assert entries[..i + 1][..i] == entries[..i];
        var ovl := entries[i];
        overlays := overlays[ovl.name := ovl];
        i := i + 1;
      }
      assert entries[..i] == entries;
      return None;
    }

    /**
     * `add_new`: the XML text first (absent or empty text is skipped), then
     * the dict records; a broken document stops before the records.
     */
    method AddNew(xml: Option<Parsed>, origin: string, hint: Option<string>, fromDict: DictArg)
      returns (err: Option<BrokenCatalog>)
      requires Valid()
      modifies this
      ensures Valid()
      ensures xml.Some? && xml.value.Malformed? ==>
                err == Some(MakeBrokenCatalog(origin, xml.value.error, hint)) && overlays == old(overlays)
      ensures !(xml.Some? && xml.value.Malformed?) ==>
                var fromXml := if xml.Some? then Entries(xml.value.doc) else [];
                err == None && overlays == Merge(Merge(old(overlays), fromXml), DictRecords(fromDict))
    {
      err := None;
      if xml.Some? {
        err := Read(xml.value, origin, hint);
        if err.Some? {
          return;
        }
      }
      // `if from_dict:` -- an absent argument and an empty list are skipped.
      if DictRecords(fromDict) != [] {
        AddFromDict(DictRecords(fromDict));
      }
    }

    /** `_add_from_dict`: stores each record under its name, in order. */
    method AddFromDict(records: seq<Overlay>)
      requires Valid()
      modifies this
      ensures Valid()
      ensures overlays == Merge(old(overlays), records)
    {
      var i := 0;
      while i < |records|
        invariant 0 <= i <= |records|
        invariant overlays == Merge(old(overlays), records[..i])
      {
        assert records[..i + 1][..i] == records[..i];
        var ovl := records[i];
        overlays := overlays[ovl.name := ovl];
        i := i + 1;
      }
      assert records[..i] == records;
    }

    /** `write`: the document stored at the path; reading it back gives this catalog. */
    function Write(): (doc: Document)
      requires Valid()
      reads this
      ensures Merge(map[], Entries(doc)) == overlays
    {
      WriteReadRoundTrip(overlays);
      Serialise(overlays)
    }

    /** `select`: the overlay of that name, or the unknown-overlay error. */
    function Select(name: string): (r: Result<Overlay, UnknownOverlay>)
      reads this
      ensures r.Success? <==> name in overlays
      ensures r.Success? ==> r.value == overlays[name]
      ensures r.Failure? ==> r.error == UnknownOverlay(name)
    {
      if name !in overlays then Failure(UnknownOverlay(name)) else Success(overlays[name])
    }

    /** `list_ids`: every name once, ascending. */
    function ListIds(): (r: seq<string>)
      reads this
      ensures StrictlySorted(r)
      ensures |r| == |overlays|
      ensures forall k :: k in r <==> k in overlays
    {
      assert |overlays.Keys| == |overlays|;
      SortedIds(overlays.Keys)
    }

    /**
     * `list`: one row per overlay named in `repos` (every overlay when
     * `repos` is empty), sorted by lower-cased summary. The dictionary is
     * iterated in ascending name order.
     */
    method List(repos: seq<string>, verbose: bool, width: int, views: Views) returns (rows: seq<Row>)
      ensures SortedBy(rows, SummaryKey)
      ensures multiset(rows) == multiset(RowsFor(overlays, SortedIds(Selected(overlays, repos)), verbose, width, views))
      ensures |rows| == |Selected(overlays, repos)|
      ensures repos == [] ==> |rows| == |overlays|
    {
      var m := overlays;
      var selection := SortedIds(Selected(m, repos));
      var result := [];
      var i := 0;
      while i < |selection|
        invariant 0 <= i <= |selection|
        invariant forall n :: n in selection ==> n in m
        invariant result == RowsFor(m, selection[..i], verbose, width, views)
      {
        RowsForStep(m, selection, i, verbose, width, views);
        result := result + [RowOf(m[selection[i]], verbose, width, views)];
        i := i + 1;
      }
      assert selection[..i] == selection;
      rows := SortBy(result, SummaryKey);
      ListedRows(m, repos, verbose, width, views, rows);
    }

    /**
     * `__eq__`: walks the union of both name sets in the set's (arbitrary)
     * order. A name missing from one side raises KeyError, returned here
     * as `Failure(name)`.
     */
    method Equals(other: Catalog) returns (r: Result<bool, string>)
      ensures r == Success(true) <==> overlays == other.overlays
      ensures r == Success(false) ==>
                exists k :: k in overlays && k in other.overlays && overlays[k] != other.overlays[k]
      ensures r.Failure? ==> (r.error in overlays) != (r.error in other.overlays)
      ensures overlays.Keys == other.overlays.Keys ==> r.Success?
    {
      var remaining := overlays.Keys + other.overlays.Keys;
      while remaining != {}
        invariant remaining <= overlays.Keys + other.overlays.Keys
        invariant forall k :: k in overlays.Keys + other.overlays.Keys && k !in remaining ==>
                    k in overlays && k in other.overlays && overlays[k] == other.overlays[k]
        decreases remaining
      {
        var key :| key in remaining;
        if key !in overlays || key !in other.overlays {
          return Failure(key);
        }
        if overlays[key] != other.overlays[key] {
          return Success(false);
        }
        remaining := remaining - {key};
      }
      assert overlays.Keys == other.overlays.Keys;
      return Success(true);
    }

    /** `__ne__`: the negation of `__eq__`, raising where it raises. */
    method NotEquals(other: Catalog) returns (r: Result<bool, string>)
      ensures r == Success(false) <==> overlays == other.overlays
      ensures r == Success(true) ==>
                exists k :: k in overlays && k in other.overlays && overlays[k] != other.overlays[k]
      ensures r.Failure? ==> (r.error in overlays) != (r.error in other.overlays)
      ensures overlays.Keys == other.overlays.Keys ==> r.Success?
    {
      var eq := Equals(other);
      r := if eq.Success? then Success(!eq.value) else eq;
    }
  }
}
