/** Capture, seal, materialize, with the database free to return a set's rows in any order at every step. */
module ArtifactRoundTrips {
  import opened Common
  import opened ArtifactPaths
  import opened ArtifactSets
  import opened Permutations
  import opened Workspaces

  // ---- Code-point order is a strict total order ----

  lemma {:induction false} BeforeItself(a: string)
    ensures !Before(a, a)
  {
    if a != "" { BeforeItself(a[1..]); }
  }

  lemma {:induction false} BeforeOneWay(a: string, b: string)
    ensures a != b ==> Before(a, b) || Before(b, a)
    decreases |a|
  {
    if a != "" && b != "" && a[0] == b[0] {
      BeforeOneWay(a[1..], b[1..]);
      assert a == [a[0]] + a[1..] && b == [b[0]] + b[1..];
    }
  }

  lemma {:induction false} BeforeThrough(a: string, b: string, c: string)
    requires Before(a, b) && Before(b, c)
    ensures Before(a, c)
    decreases |a|
  {
    if a != "" && a[0] == b[0] && b[0] == c[0] { BeforeThrough(a[1..], b[1..], c[1..]); }
  }

  // ---- Sorting forgets the order of its input ----

  predicate Sorted(entries: seq<DigestEntry>) {
    forall i, k | 0 <= i < k < |entries| :: Before(entries[i].path, entries[k].path)
  }

  predicate ApartByPath(entries: seq<DigestEntry>) {
    forall i, k | 0 <= i < k < |entries| :: entries[i].path != entries[k].path
  }

  lemma {:induction false} InsertSorts(entry: DigestEntry, sorted: seq<DigestEntry>)
    requires Sorted(sorted) && forall e | e in sorted :: e.path != entry.path
    ensures Sorted(Insert(entry, sorted))
  {
    if sorted != [] {
      if Before(entry.path, sorted[0].path) {
        FrontSorts(entry, sorted);
      } else {
        BeforeOneWay(entry.path, sorted[0].path);
        InsertSorts(entry, sorted[1..]);
        var rest := Insert(entry, sorted[1..]);
        forall e | e in rest ensures Before(sorted[0].path, e.path) {
          assert e in multiset(rest);
          assert e == entry || e in sorted[1..];
        }
      }
    }
  }

  lemma FrontSorts(entry: DigestEntry, sorted: seq<DigestEntry>)
    requires Sorted(sorted) && sorted != [] && Before(entry.path, sorted[0].path)
    ensures Sorted([entry] + sorted)
  {
    forall k | 0 <= k < |sorted| ensures Before(entry.path, sorted[k].path) {
      if k > 0 { BeforeThrough(entry.path, sorted[0].path, sorted[k].path); }
    }
  }

  lemma {:induction false} SortSorts(entries: seq<DigestEntry>)
    requires ApartByPath(entries)
    ensures Sorted(SortByPath(entries))
  {
    if entries != [] {
      var rest := SortByPath(entries[1..]);
      SortSorts(entries[1..]);
      forall e | e in rest ensures e.path != entries[0].path {
        assert e in multiset(entries[1..]);
        var k :| 0 < k < |entries| && entries[k] == e;
      }
      InsertSorts(entries[0], rest);
    }
  }

  /** Two sorted lists of the same entries are the same list. */
  lemma {:induction false} SortedUnique(a: seq<DigestEntry>, b: seq<DigestEntry>)
    requires Sorted(a) && Sorted(b) && Permuted(a, b)
    ensures a == b
  {
    SameLength(a, b);
    if a != [] {
      SameFirst(a, b);
      TailsPermuted(a, b);
      SortedUnique(a[1..], b[1..]);
      assert a == [a[0]] + a[1..] && b == [b[0]] + b[1..];
    }
  }

  lemma SameFirst(a: seq<DigestEntry>, b: seq<DigestEntry>)
    requires Sorted(a) && Sorted(b) && Permuted(a, b) && a != [] && b != []
    ensures a[0] == b[0]
  {
    var i := Counterpart(a, b, 0);
    var k := Counterpart(b, a, 0);
    if i > 0 && k > 0 {
      BeforeThrough(a[0].path, b[0].path, a[0].path);
      BeforeItself(a[0].path);
    }
  }

  /** The digest of a set with distinct paths does not depend on the order of its rows. */
  lemma DigestPermuted(p: Platform, rows: seq<Row>, rows': seq<Row>)
    requires Permuted(rows, rows') && NoRepeat(PathTexts(rows))
    ensures Digest(p, rows) == Digest(p, rows')
  {
    EachPermuted(EntryOf, rows, rows');
    assert Each(EntryOf, rows) == DigestEntries(rows) && Each(EntryOf, rows') == DigestEntries(rows');
    TextsPermuted(rows, rows');
    NoRepeatPermuted(PathTexts(rows), PathTexts(rows'));
    EntriesApart(rows);
    EntriesApart(rows');
    SortSorts(DigestEntries(rows));
    SortSorts(DigestEntries(rows'));
    SortedUnique(SortByPath(DigestEntries(rows)), SortByPath(DigestEntries(rows')));
  }

  lemma EntriesApart(rows: seq<Row>)
    requires NoRepeat(PathTexts(rows))
    ensures ApartByPath(DigestEntries(rows))
  {
    forall i, k | 0 <= i < k < |rows| ensures DigestEntries(rows)[i].path != DigestEntries(rows)[k].path {
      assert PathTexts(rows)[i] != PathTexts(rows)[k];
    }
  }

  lemma TextsPermuted(rows: seq<Row>, rows': seq<Row>)
    requires Permuted(rows, rows')
    ensures Permuted(PathTexts(rows), PathTexts(rows'))
  {
    var f := (row: Row) => row.path;
    EachPermuted(f, rows, rows');
    assert Each(f, rows) == PathTexts(rows) && Each(f, rows') == PathTexts(rows');
  }

  // ---- So do the other parts of validation ----

  lemma {:induction false} TotalPermuted(rows: seq<Row>, rows': seq<Row>)
    requires Permuted(rows, rows')
    ensures Total(rows) == Total(rows')
    decreases |rows|
  {
    SameLength(rows, rows');
    if rows != [] {
      var i := LastElsewhere(rows, rows');
      TotalPermuted(rows[..|rows| - 1], Without(rows', i));
      TotalWithout(rows', i);
    }
  }

  lemma {:induction false} TotalWithout(rows: seq<Row>, i: nat)
    requires i < |rows|
    ensures Total(rows) == Total(Without(rows, i)) + rows[i].rawSize
  {
    var n := |rows| - 1;
    if i == n {
      assert Without(rows, i) == rows[..n];
    } else {
      TotalWithout(rows[..n], i);
      assert Without(rows, i)[..n - 1] == Without(rows[..n], i);
    }
  }

  /** Two different paths of one list that do not get in each other's way. */
  predicate Compatible(fold: string -> string, p: Path, q: Path) {
    SpelledAlike(fold, p, q) && Fold(fold, p) != Fold(fold, q) && !Above(fold, p, q) && !Above(fold, q, p)
  }

  /** Legality is a matter of which paths there are. */
  predicate LegalElements(fold: string -> string, paths: seq<Path>) {
    NoRepeat(paths) && forall p, q | p in paths && q in paths && p != q :: Compatible(fold, p, q)
  }

  lemma LegalIsElements(fold: string -> string, paths: seq<Path>)
    ensures Legal(fold, paths) <==> LegalElements(fold, paths)
  {
    if Legal(fold, paths) {
      forall p, q | p in paths && q in paths && p != q ensures Compatible(fold, p, q) {
        var i :| 0 <= i < |paths| && paths[i] == p;
        var k :| 0 <= k < |paths| && paths[k] == q;
        assert !Above(fold, paths[i], paths[k]) && !Above(fold, paths[k], paths[i]);
        if i < k { assert SpelledAlike(fold, paths[i], paths[k]); } else { assert SpelledAlike(fold, paths[k], paths[i]); }
      }
      forall i, k | 0 <= i < k < |paths| ensures paths[i] != paths[k] {
        assert Fold(fold, paths[i]) != Fold(fold, paths[k]);
      }
    }
    if LegalElements(fold, paths) { ElementsLegal(fold, paths); }
  }

  lemma ElementsLegal(fold: string -> string, paths: seq<Path>)
    requires LegalElements(fold, paths)
    ensures Legal(fold, paths)
  {
    forall i, k | 0 <= i < k < |paths|
      ensures SpelledAlike(fold, paths[i], paths[k]) && Fold(fold, paths[i]) != Fold(fold, paths[k])
    {
      assert Compatible(fold, paths[i], paths[k]);
    }
    forall i, k | 0 <= i < |paths| && 0 <= k < |paths| ensures !Above(fold, paths[i], paths[k]) {
      if i != k {
        assert paths[i] != paths[k];
        assert Compatible(fold, paths[i], paths[k]);
      }
    }
  }

  lemma LegalPermuted(fold: string -> string, paths: seq<Path>, paths': seq<Path>)
    requires Permuted(paths, paths') && Legal(fold, paths)
    ensures Legal(fold, paths')
  {
    LegalIsElements(fold, paths);
    SameElements(paths, paths');
    NoRepeatPermuted(paths, paths');
    LegalIsElements(fold, paths');
  }

  function PartsOr(text: string, reserved: string -> bool): Path {
    var parsed := Relative(text, reserved);
    if parsed.Ok? then parsed.value else []
  }

  lemma PathsOkPermuted(p: Platform, texts: seq<string>, texts': seq<string>)
    requires Permuted(texts, texts') && PathsOk(p, texts)
    ensures PathsOk(p, texts') && NoRepeat(texts)
  {
    SameElements(texts, texts');
    forall i | 0 <= i < |texts'| ensures Relative(texts'[i], p.reserved).Ok? {
      assert texts'[i] in texts;
    }
    var f := (text: string) => PartsOr(text, p.reserved);
    EachPermuted(f, texts, texts');
    assert Each(f, texts) == Parsed(texts, p.reserved) && Each(f, texts') == Parsed(texts', p.reserved);
    LegalPermuted(p.fold, Parsed(texts, p.reserved), Parsed(texts', p.reserved));
    forall i, k | 0 <= i < k < |texts| ensures texts[i] != texts[k] {
      assert Fold(p.fold, Parsed(texts, p.reserved)[i]) != Fold(p.fold, Parsed(texts, p.reserved)[k]);
    }
  }

  /** Whether a set passes validation does not depend on the order in which its rows are read. */
  lemma IntactPermuted(p: Platform, limits: Limits, meta: Metadata, rows: seq<Row>, rows': seq<Row>)
    requires Permuted(rows, rows')
    ensures Intact(p, limits, meta, rows) <==> Intact(p, limits, meta, rows')
  {
    if Intact(p, limits, meta, rows) { StillIntact(p, limits, meta, rows, rows'); }
    if Intact(p, limits, meta, rows') { StillIntact(p, limits, meta, rows', rows); }
  }

  lemma StillIntact(p: Platform, limits: Limits, meta: Metadata, rows: seq<Row>, rows': seq<Row>)
    requires Permuted(rows, rows') && Intact(p, limits, meta, rows)
    ensures Intact(p, limits, meta, rows')
  {
    SameLength(rows, rows');
    TotalPermuted(rows, rows');
    TextsPermuted(rows, rows');
    PathsOkPermuted(p, PathTexts(rows), PathTexts(rows'));
    DigestPermuted(p, rows, rows');
    SameElements(rows, rows');
    forall i | 0 <= i < |rows'| ensures Decode(p, rows'[i], limits.file).Ok? { assert rows'[i] in rows; }
  }

  // ---- What is captured is what comes back ----

  /** A captured set passes the validation that seals it, in whatever order its rows are read. */
  lemma CaptureValidates(p: Platform, limits: Limits, sources: seq<Source>, rows: seq<Row>)
    requires Inverse(p) && Capturable(p, limits, sources) && Permuted(rows, RowsOf(p, sources))
    ensures Intact(p, limits, MetadataOf(p, sources), rows)
  {
    CapturedIntact(p, limits, sources);
    IntactPermuted(p, limits, MetadataOf(p, sources), RowsOf(p, sources), rows);
  }

  /** The item written for a captured file: its own path, bytes and executable flag. */
  predicate ItemFor(item: Item, source: Source) {
    && item.path != [] && Join(item.path) == source.path && item.content == source.content
    && item.executable == (source.OnDisk? && source.executable)
  }

  /** Each captured file has its item, in whatever order the rows are read. */
  lemma CapturedItems(p: Platform, limits: Limits, sources: seq<Source>, rows: seq<Row>, k: nat) returns (i: nat)
    requires Inverse(p) && Capturable(p, limits, sources) && Permuted(rows, RowsOf(p, sources)) && k < |sources|
    ensures Decodable(p, limits, rows) && |rows| == |sources|
    ensures i < |rows| && ItemFor(ItemsOf(p, limits, rows)[i], sources[k])
  {
    CaptureValidates(p, limits, sources, rows);
    IntactItems(p, limits, MetadataOf(p, sources), rows);
    SameLength(rows, RowsOf(p, sources));
    i := Counterpart(RowsOf(p, sources), rows, k);
    RowItem(p, limits, sources, rows, i, k);
  }

  /** And each item has its captured file. */
  lemma ItemsCaptured(p: Platform, limits: Limits, sources: seq<Source>, rows: seq<Row>, i: nat) returns (k: nat)
    requires Inverse(p) && Capturable(p, limits, sources) && Permuted(rows, RowsOf(p, sources)) && i < |rows|
    ensures Decodable(p, limits, rows) && k < |sources| && ItemFor(ItemsOf(p, limits, rows)[i], sources[k])
  {
    CaptureValidates(p, limits, sources, rows);
    IntactItems(p, limits, MetadataOf(p, sources), rows);
    k := Counterpart(rows, RowsOf(p, sources), i);
    RowItem(p, limits, sources, rows, i, k);
  }

  lemma RowItem(p: Platform, limits: Limits, sources: seq<Source>, rows: seq<Row>, i: nat, k: nat)
    requires Inverse(p) && Capturable(p, limits, sources) && Decodable(p, limits, rows)
    requires i < |rows| && k < |sources| && rows[i] == RowOf(p, sources[k])
    ensures ItemFor(ItemsOf(p, limits, rows)[i], sources[k])
  {
    RowDecodes(p, sources[k], limits.file);
    RelativeReadsBack(sources[k].path, p.reserved);
  }

  // ---- The round trip ----

  /** The captured file stands in the tree under its exact path, below directories spelled as in that path. */
  ghost predicate FileBack(p: Platform, entries: Entries, source: Source) {
    var path := PartsOr(source.path, p.reserved);
    var folded := Fold(p.fold, path);
    && path != [] && Join(path) == source.path && folded in entries
    && entries[folded] == File(Last(path), source.content, source.OnDisk? && source.executable)
    && forall f | f < folded && f != [] :: f in entries && entries[f] == Dir(path[|f| - 1])
  }

  /** All captured files, the directories they need, and nothing else. */
  ghost predicate Restored(p: Platform, entries: Entries, sources: seq<Source>) {
    && (forall k | 0 <= k < |sources| :: FileBack(p, entries, sources[k]))
    && (forall f | f in entries :: f == [] || exists k :: 0 <= k < |sources| && BelongsTo(p, f, sources[k]))
  }

  lemma NameOf(entries: Entries, folded: Path, path: Path, f: Path)
    requires |folded| == |path| && NamedAs(entries, folded, path) && f <= folded && f != [] && f in entries
    ensures entries[f].name == path[|f| - 1]
  {}

  lemma DirectoriesBack(entries: Entries, folded: Path, item: Item)
    requires |folded| == |item.path| && ItemIn(entries, folded, item) && NamedAs(entries, folded, item.path)
    ensures forall f | f < folded && f != [] :: f in entries && entries[f] == Dir(item.path[|f| - 1])
  {
    forall f | f < folded && f != [] ensures f in entries && entries[f] == Dir(item.path[|f| - 1]) {
      PrefixOrSame(f, folded);
      NameOf(entries, folded, item.path, f);
    }
  }

  lemma ItemBack(p: Platform, entries: Entries, item: Item, source: Source)
    requires ItemIn(entries, Fold(p.fold, item.path), item) && NamedAs(entries, Fold(p.fold, item.path), item.path)
    requires ItemFor(item, source) && Relative(source.path, p.reserved) == Ok(item.path)
    ensures FileBack(p, entries, source)
  {
    var folded := Fold(p.fold, item.path);
    DirectoriesBack(entries, folded, item);
    PrefixOrSame(folded, folded);
    NameOf(entries, folded, item.path, folded);
  }

  lemma ItemPath(p: Platform, limits: Limits, rows: seq<Row>, i: nat, source: Source)
    requires Decodable(p, limits, rows) && i < |rows| && ItemFor(ItemsOf(p, limits, rows)[i], source)
    ensures Relative(source.path, p.reserved) == Ok(ItemsOf(p, limits, rows)[i].path)
  {
    RelativeReadsBack(rows[i].path, p.reserved);
  }

  lemma FileIsBack(p: Platform, limits: Limits, sources: seq<Source>, rows: seq<Row>, entries: Entries, k: nat)
    requires Inverse(p) && Capturable(p, limits, sources) && Permuted(rows, RowsOf(p, sources)) && k < |sources|
    requires Decodable(p, limits, rows) && Reproduces(p.fold, entries, ItemsOf(p, limits, rows))
    ensures FileBack(p, entries, sources[k])
  {
    var items := ItemsOf(p, limits, rows);
    var i := CapturedItems(p, limits, sources, rows, k);
    ItemPath(p, limits, rows, i, sources[k]);
    assert Folds(p.fold, items)[i] == Fold(p.fold, items[i].path);
    ItemBack(p, entries, items[i], sources[k]);
  }

  /** The entry belongs to a captured file: it is the file or one of its parents. */
  predicate BelongsTo(p: Platform, f: Path, source: Source) {
    f <= Fold(p.fold, PartsOr(source.path, p.reserved))
  }

  lemma NothingElse(p: Platform, limits: Limits, sources: seq<Source>, rows: seq<Row>, entries: Entries, f: Path) returns (k: nat)
    requires Inverse(p) && Capturable(p, limits, sources) && Permuted(rows, RowsOf(p, sources))
    requires Decodable(p, limits, rows) && Reproduces(p.fold, entries, ItemsOf(p, limits, rows))
    requires f in entries && f != []
    ensures k < |sources| && BelongsTo(p, f, sources[k])
  {
    var items := ItemsOf(p, limits, rows);
    var folds := Folds(p.fold, items);
    assert From(folds, f);
    var i :| 0 <= i < |folds| && f <= folds[i];
    k := ItemsCaptured(p, limits, sources, rows, i);
    ItemPath(p, limits, rows, i, sources[k]);
  }

  lemma ReproducedIsRestored(p: Platform, limits: Limits, sources: seq<Source>, rows: seq<Row>, entries: Entries)
    requires Inverse(p) && Capturable(p, limits, sources) && Permuted(rows, RowsOf(p, sources))
    requires Decodable(p, limits, rows) && Reproduces(p.fold, entries, ItemsOf(p, limits, rows))
    ensures Restored(p, entries, sources)
  {
    forall k | 0 <= k < |sources| ensures FileBack(p, entries, sources[k]) {
      FileIsBack(p, limits, sources, rows, entries, k);
    }
    forall f | f in entries && f != [] ensures exists k :: 0 <= k < |sources| && BelongsTo(p, f, sources[k]) {
      var k := NothingElse(p, limits, sources, rows, entries, f);
    }
  }

  ghost predicate AnyOrder(order: seq<Row> -> seq<Row>) {
    forall rows :: Permuted(order(rows), rows)
  }

  /** Capture, seal and materialize under the same limits: whatever can be captured comes back exactly, whichever
      order the rows are read in when the set is sealed and when it is restored. */
  method CaptureSealMaterialize(p: Platform, limits: Limits, sources: seq<Source>, atSeal: seq<Row> -> seq<Row>,
                                atRestore: seq<Row> -> seq<Row>, destination: Workspace)
    returns (failed: Option<SetError>)
    requires Inverse(p) && AnyOrder(atSeal) && AnyOrder(atRestore)
    requires destination.fold == p.fold && destination.entries == EMPTY
    modifies destination
    ensures failed.None? <==> Capturable(p, limits, sources)
    ensures failed.None? ==> Restored(p, destination.entries, sources)
    ensures failed.Some? ==> destination.entries == EMPTY
  {
    var captured := Capture(p, limits, sources);
    if captured.Err? { return Some(captured.error); }
    var (meta, rows) := captured.value;
    var read := atSeal(rows);
    CaptureValidates(p, limits, sources, read);
    var sealed := SealSet(p, limits, Some(StoredSet(Staging, meta, read)));
    var again := atRestore(rows);
    CaptureValidates(p, limits, sources, again);
    failed := MaterializeSet(p, limits, Some(sealed.value.(rows := again)), destination);
    ReproducedIsRestored(p, limits, sources, again, destination.entries);
  }
}
