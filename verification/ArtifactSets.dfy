/** Artifact sets: capture, validation, sealing and materialization of a list of files. */
module ArtifactSets {
  import opened Common
  import opened ArtifactPaths
  import opened Permutations
  import opened Workspaces

  const MAX_FILE_BYTES: int := 64 * 1024 * 1024
  const MAX_SET_BYTES: int := 256 * 1024 * 1024

  datatype SetError = PathProblem(error: PathError) | SetLimit | Changed | SetSize | SetDigest
                    | FileLimit | StoredSize | UnsupportedCodec | Corrupt | Checksum | BadLimits
                    | Unsealable | Unsealed | DestinationNotEmpty

  datatype Codec = Raw | Gzip | Other
  datatype Row = Row(path: string, stored: Content, codec: Codec, sha: string, rawSize: int, storedSize: int, executable: bool)
  datatype Metadata = Metadata(digest: string, count: nat, rawBytes: nat)
  datatype Limits = Limits(file: nat, total: nat)

  /** A file as capture meets it: the size found first, the bytes read later. */
  datatype Source = OnDisk(path: string, size: nat, content: Content, executable: bool) | InMemory(path: string, content: Content)

  /** Hashing, compression, and the conventions of names, as the platform supplies them. */
  datatype Platform = Platform(
    sha: Content -> string, hash: string -> string, deflate: Content -> Content, inflate: Content -> Option<Content>,
    reserved: string -> bool, fold: string -> string)

  /** Settings can only tighten the hard limits. */
  function LimitsFor(file: int, total: int): (limits: Result<Limits, SetError>)
    ensures limits.Ok? <==> file > 0 && total > 0
    ensures limits.Ok? ==> 0 < limits.value.file <= MAX_FILE_BYTES && 0 < limits.value.total <= MAX_SET_BYTES
    ensures limits.Ok? ==> limits.value.file <= file && limits.value.total <= total
    ensures limits.Ok? ==> limits.value.file in {file, MAX_FILE_BYTES} && limits.value.total in {total, MAX_SET_BYTES}
  {
    var f, t := if file < MAX_FILE_BYTES then file else MAX_FILE_BYTES, if total < MAX_SET_BYTES then total else MAX_SET_BYTES;
    if f <= 0 || t <= 0 then Err(BadLimits) else Ok(Limits(f, t))
  }

  // ---- One stored file ----

  function Decode(p: Platform, row: Row, max: nat): Result<Content, SetError> {
    if row.rawSize < 0 || row.rawSize > max || row.storedSize > max then Err(FileLimit)
    else if |row.stored| != row.storedSize then Err(StoredSize)
    else if row.codec.Other? then Err(UnsupportedCodec)
    else if row.codec.Gzip? && p.inflate(row.stored).None? then Err(Corrupt)
    else
      var content := if row.codec.Gzip? then UpTo(p.inflate(row.stored).value, max + 1) else row.stored;
      if |content| != row.rawSize || p.sha(content) != row.sha then Err(Checksum) else Ok(content)
  }

  /** Bounded reading costs nothing: a row decodes to a content exactly when its sizes are within the limit and its stored
      bytes, as they are or inflated in full, are that content, of the recorded size and hash. */
  lemma DecodeExact(p: Platform, row: Row, max: nat, content: Content)
    ensures Decode(p, row, max) == Ok(content) <==>
      && 0 <= row.rawSize <= max && |row.stored| == row.storedSize <= max
      && (row.codec == Raw ==> row.stored == content)
      && (row.codec == Gzip ==> p.inflate(row.stored) == Some(content))
      && row.codec != Other
      && |content| == row.rawSize && p.sha(content) == row.sha
  {
    if row.codec == Gzip && p.inflate(row.stored).Some? {
      var full := p.inflate(row.stored).value;
      assert |full| > max ==> |UpTo(full, max + 1)| == max + 1;
    }
  }

  /** A bounded read. */
  function UpTo(content: Content, n: nat): Content {
    if |content| > n then content[..n] else content
  }

  function Size(source: Source): nat {
    if source.InMemory? then |source.content| else source.size
  }

  /** Only files from memory are compressed, and only when that saves space. */
  function RowOf(p: Platform, source: Source): (row: Row)
    ensures |row.stored| <= |source.content|
    ensures row.codec == Raw ==> row.stored == source.content
    ensures row.codec != Raw <==> source.InMemory? && |p.deflate(source.content)| < |source.content|
  {
    var small := p.deflate(source.content);
    if source.InMemory? && |small| < |source.content|
    then Row(source.path, small, Gzip, p.sha(source.content), |source.content|, |small|, false)
    else Row(source.path, source.content, Raw, p.sha(source.content), |source.content|, |source.content|,
             source.OnDisk? && source.executable)
  }

  ghost predicate Inverse(p: Platform) {
    forall c :: p.inflate(p.deflate(c)) == Some(c)
  }

  /** What capture stores decodes to the captured bytes, under the same limit. */
  lemma RowDecodes(p: Platform, source: Source, max: nat)
    requires Inverse(p) && |source.content| <= max
    ensures Decode(p, RowOf(p, source), max) == Ok(source.content)
  {}

  // ---- The digest of a set ----

  datatype DigestEntry = DigestEntry(path: string, sha: string, size: int)

  function Decimal(n: nat): (digits: string)
    ensures digits != "" && '\0' !in digits
  {
    var last := [('0' as int + n % 10) as char];
    if n < 10 then last else Decimal(n / 10) + last
  }

  function Number(n: int): string {
    if n < 0 then "-" + Decimal(-n) else Decimal(n)
  }

  function Frame(entries: seq<DigestEntry>): string {
    if entries == [] then ""
    else entries[0].path + "\0" + (entries[0].sha + "\0" + (Number(entries[0].size) + "\0" + Frame(entries[1..])))
  }

  /** Code-point order of strings. */
  predicate Before(a: string, b: string)
    decreases |a|
  {
    b != "" && (a == "" || a[0] < b[0] || (a[0] == b[0] && Before(a[1..], b[1..])))
  }

  function Insert(entry: DigestEntry, sorted: seq<DigestEntry>): (r: seq<DigestEntry>)
    ensures multiset(r) == multiset(sorted) + multiset{entry}
  {
    if sorted == [] || Before(entry.path, sorted[0].path) then [entry] + sorted
    else
      assert sorted == [sorted[0]] + sorted[1..];
      [sorted[0]] + Insert(entry, sorted[1..])
  }

  function SortByPath(entries: seq<DigestEntry>): (r: seq<DigestEntry>)
    ensures Permuted(r, entries)
  {
    if entries == [] then []
    else
      assert entries == [entries[0]] + entries[1..];
      Insert(entries[0], SortByPath(entries[1..]))
  }

  function EntryOf(row: Row): DigestEntry {
    DigestEntry(row.path, row.sha, row.rawSize)
  }

  function DigestEntries(rows: seq<Row>): (entries: seq<DigestEntry>)
    ensures |entries| == |rows|
  {
    seq(|rows|, i requires 0 <= i < |rows| => EntryOf(rows[i]))
  }

  function Digest(p: Platform, rows: seq<Row>): string {
    p.hash(Frame(SortByPath(DigestEntries(rows))))
  }

  lemma {:induction false} FieldEnds(a: string, b: string, x: string, y: string)
    requires '\0' !in a && '\0' !in b && a + "\0" + x == b + "\0" + y
    ensures a == b && x == y
    decreases |a|
  {
    var left, right := a + "\0" + x, b + "\0" + y;
    assert left[0] == right[0];
    if a == "" {
      assert left[1..] == x && right[1..] == y;
    } else {
      assert left[0] == a[0] && a[0] in a;
      assert b != "";
      assert left[1..] == a[1..] + "\0" + x && right[1..] == b[1..] + "\0" + y;
      FieldEnds(a[1..], b[1..], x, y);
      assert a == [a[0]] + a[1..] && b == [b[0]] + b[1..];
    }
  }

  lemma {:induction false} DecimalInjective(n: nat, m: nat)
    requires Decimal(n) == Decimal(m)
    ensures n == m
  {
    var a, b := Decimal(n), Decimal(m);
    assert a[|a| - 1] == ('0' as int + n % 10) as char && b[|b| - 1] == ('0' as int + m % 10) as char;
    assert n % 10 == m % 10;
    if n >= 10 && m >= 10 {
      assert a[..|a| - 1] == Decimal(n / 10) && b[..|b| - 1] == Decimal(m / 10);
      DecimalInjective(n / 10, m / 10);
    }
  }

  predicate PlainEntry(entry: DigestEntry) {
    '\0' !in entry.path && '\0' !in entry.sha && entry.size >= 0
  }

  /** Framed with terminators, different lists of entries never look alike. */
  lemma {:induction false} FrameInjective(a: seq<DigestEntry>, b: seq<DigestEntry>)
    requires (forall e | e in a :: PlainEntry(e)) && (forall e | e in b :: PlainEntry(e))
    requires Frame(a) == Frame(b)
    ensures a == b
  {
    assert (a != [] ==> |Frame(a)| > 0) && (b != [] ==> |Frame(b)| > 0);
    if a != [] && b != [] {
      assert PlainEntry(a[0]) && PlainEntry(b[0]);
      var sizeA, sizeB := Number(a[0].size) + "\0" + Frame(a[1..]), Number(b[0].size) + "\0" + Frame(b[1..]);
      FieldEnds(a[0].path, b[0].path, a[0].sha + "\0" + sizeA, b[0].sha + "\0" + sizeB);
      FieldEnds(a[0].sha, b[0].sha, sizeA, sizeB);
      FieldEnds(Decimal(a[0].size), Decimal(b[0].size), Frame(a[1..]), Frame(b[1..]));
      DecimalInjective(a[0].size, b[0].size);
      FrameInjective(a[1..], b[1..]);
    }
  }

  // ---- Validation ----

  function PathTexts(rows: seq<Row>): (texts: seq<string>)
    ensures |texts| == |rows|
  {
    seq(|rows|, i requires 0 <= i < |rows| => rows[i].path)
  }

  function Total(rows: seq<Row>): int {
    if rows == [] then 0 else Total(rows[..|rows| - 1]) + rows[|rows| - 1].rawSize
  }

  predicate PathsOk(p: Platform, texts: seq<string>) {
    AllRelative(texts, p.reserved) && Legal(p.fold, Parsed(texts, p.reserved))
  }

  /** What a sealed set has passed: legal paths, the recorded size, count and digest, and every file intact. */
  predicate Intact(p: Platform, limits: Limits, meta: Metadata, rows: seq<Row>) {
    && PathsOk(p, PathTexts(rows))
    && Total(rows) == meta.rawBytes <= limits.total && |rows| == meta.count
    && Digest(p, rows) == meta.digest
    && forall i | 0 <= i < |rows| :: Decode(p, rows[i], limits.file).Ok?
  }

  method AddUp(rows: seq<Row>) returns (total: int)
    ensures total == Total(rows)
  {
    total := 0;
    var i := 0;
    while i < |rows|
      invariant 0 <= i <= |rows| && total == Total(rows[..i])
    {
      assert rows[..i + 1][..i] == rows[..i];
      total := total + rows[i].rawSize;
      i := i + 1;
    }
    assert rows[..i] == rows;
  }

  method FirstUndecodable(p: Platform, limits: Limits, rows: seq<Row>) returns (failed: Option<SetError>)
    ensures failed.None? <==> forall i | 0 <= i < |rows| :: Decode(p, rows[i], limits.file).Ok?
    ensures failed.Some? ==> exists i :: 0 <= i < |rows| && Decode(p, rows[i], limits.file) == Err(failed.value)
  {
    var i := 0;
    while i < |rows|
      invariant 0 <= i <= |rows| && forall k | 0 <= k < i :: Decode(p, rows[k], limits.file).Ok?
    {
      var content := Decode(p, rows[i], limits.file);
      if content.Err? { return Some(content.error); }
      i := i + 1;
    }
    return None;
  }

  method Validate(p: Platform, limits: Limits, meta: Metadata, rows: seq<Row>) returns (failed: Option<SetError>)
    ensures failed.None? <==> Intact(p, limits, meta, rows)
    ensures failed.Some? ==> !failed.value.Unsealable? && !failed.value.Unsealed? && !failed.value.DestinationNotEmpty?
  {
    var checked := CheckPaths(PathTexts(rows), p.reserved, p.fold);
    if checked.Err? { return Some(PathProblem(checked.error)); }
    var total := AddUp(rows);
    if total > limits.total || total != meta.rawBytes || |rows| != meta.count { return Some(SetSize); }
    if Digest(p, rows) != meta.digest { return Some(SetDigest); }
    failed := FirstUndecodable(p, limits, rows);
  }

  // ---- The stored set ----

  datatype SetState = Staging | Sealed | Deleting
  datatype StoredSet = StoredSet(state: SetState, meta: Metadata, rows: seq<Row>)

  /** The set a query returns: its rows in whatever order the database yields them. */
  predicate SameSet(a: StoredSet, b: StoredSet) {
    a.state == b.state && a.meta == b.meta && Permuted(a.rows, b.rows)
  }

  /** Only a staged or sealed set that is intact under these limits is sealed; nothing else about it changes. */
  method SealSet(p: Platform, limits: Limits, stored: Option<StoredSet>) returns (sealed: Result<StoredSet, SetError>)
    ensures sealed.Ok? <==> stored.Some? && stored.value.state in {Staging, Sealed}
                            && Intact(p, limits, stored.value.meta, stored.value.rows)
    ensures sealed.Ok? ==> sealed.value == stored.value.(state := Sealed)
    ensures sealed == Err(Unsealable) <==> stored.None? || stored.value.state == Deleting
  {
    if stored.None? || (stored.value.state != Staging && stored.value.state != Sealed) { return Err(Unsealable); }
    var failed := Validate(p, limits, stored.value.meta, stored.value.rows);
    if failed.Some? { return Err(failed.value); }
    return Ok(stored.value.(state := Sealed));
  }

  // ---- Capture ----

  function Sum(sources: seq<Source>): nat {
    if sources == [] then 0 else Sum(sources[..|sources| - 1]) + Size(sources[|sources| - 1])
  }

  function Texts(sources: seq<Source>): (texts: seq<string>)
    ensures |texts| == |sources|
  {
    seq(|sources|, i requires 0 <= i < |sources| => sources[i].path)
  }

  function RowsOf(p: Platform, sources: seq<Source>): (rows: seq<Row>)
    ensures |rows| == |sources|
  {
    seq(|sources|, i requires 0 <= i < |sources| => RowOf(p, sources[i]))
  }

  function MetadataOf(p: Platform, sources: seq<Source>): Metadata {
    Metadata(Digest(p, RowsOf(p, sources)), |sources|, Sum(sources))
  }

  /** Capture accepts legal paths within the limits whose files did not change between the two looks. */
  predicate Capturable(p: Platform, limits: Limits, sources: seq<Source>) {
    && PathsOk(p, Texts(sources)) && Sum(sources) <= limits.total
    && forall i | 0 <= i < |sources| :: Size(sources[i]) <= limits.file && |sources[i].content| == Size(sources[i])
  }

  lemma {:induction false} SumGrows(sources: seq<Source>, n: nat)
    requires n <= |sources|
    ensures Sum(sources[..n]) <= Sum(sources)
    decreases |sources| - n
  {
    if n < |sources| {
      assert sources[..n + 1][..n] == sources[..n];
      SumGrows(sources, n + 1);
    } else {
      assert sources[..n] == sources;
    }
  }

  method Measure(limits: Limits, sources: seq<Source>) returns (ok: bool, total: nat)
    ensures ok <==> Sum(sources) <= limits.total && forall i | 0 <= i < |sources| :: Size(sources[i]) <= limits.file
    ensures ok ==> total == Sum(sources)
  {
    total := 0;
    var i := 0;
    while i < |sources|
      invariant 0 <= i <= |sources| && total == Sum(sources[..i]) && (i > 0 ==> total <= limits.total)
      invariant forall k | 0 <= k < i :: Size(sources[k]) <= limits.file
    {
      assert sources[..i + 1][..i] == sources[..i];
      SumGrows(sources, i + 1);
      total := total + Size(sources[i]);
      if Size(sources[i]) > limits.file || total > limits.total { return false, total; }
      i := i + 1;
    }
    assert sources[..i] == sources;
    return true, total;
  }

  /** The files come in sorted order, one for each name. */
  method Capture(p: Platform, limits: Limits, sources: seq<Source>) returns (captured: Result<(Metadata, seq<Row>), SetError>)
    ensures captured.Ok? <==> Capturable(p, limits, sources)
    ensures captured.Ok? ==> captured.value == (MetadataOf(p, sources), RowsOf(p, sources))
  {
    var checked := CheckPaths(Texts(sources), p.reserved, p.fold);
    if checked.Err? { return Err(PathProblem(checked.error)); }
    var ok, total := Measure(limits, sources);
    if !ok { return Err(SetLimit); }
    var rows: seq<Row> := [];
    var i := 0;
    while i < |sources|
      invariant 0 <= i <= |sources| && rows == RowsOf(p, sources[..i])
      invariant forall k | 0 <= k < i :: |sources[k].content| == Size(sources[k])
    {
      var content := if sources[i].InMemory? then sources[i].content else UpTo(sources[i].content, limits.file + 1);
      if |content| != Size(sources[i]) { return Err(Changed); }
      var stored, codec := content, Raw;
      if sources[i].InMemory? {
        var compressed := p.deflate(content);
        if |compressed| < |content| { stored, codec := compressed, Gzip; }
      }
      rows := rows + [Row(sources[i].path, stored, codec, p.sha(content), |content|, |stored|,
                          sources[i].OnDisk? && sources[i].executable)];
      i := i + 1;
    }
    assert sources[..i] == sources;
    return Ok((Metadata(Digest(p, rows), |sources|, total), rows));
  }

  // ---- What is captured is what comes back ----

  lemma {:induction false} TotalIsSum(p: Platform, sources: seq<Source>)
    requires forall i | 0 <= i < |sources| :: |sources[i].content| == Size(sources[i])
    ensures Total(RowsOf(p, sources)) == Sum(sources)
  {
    if sources != [] {
      var n := |sources| - 1;
      TotalIsSum(p, sources[..n]);
      assert RowsOf(p, sources)[..n] == RowsOf(p, sources[..n]);
    }
  }

  lemma CapturedIntact(p: Platform, limits: Limits, sources: seq<Source>)
    requires Inverse(p) && Capturable(p, limits, sources)
    ensures Intact(p, limits, MetadataOf(p, sources), RowsOf(p, sources))
    ensures forall i | 0 <= i < |sources| :: Decode(p, RowsOf(p, sources)[i], limits.file) == Ok(sources[i].content)
  {
    TotalIsSum(p, sources);
    assert PathTexts(RowsOf(p, sources)) == Texts(sources);
    forall i | 0 <= i < |sources| ensures Decode(p, RowsOf(p, sources)[i], limits.file) == Ok(sources[i].content) {
      RowDecodes(p, sources[i], limits.file);
    }
  }

  // ---- Nothing else passes for it ----

  ghost predicate Injective(p: Platform) {
    && (forall x, y | p.sha(x) == p.sha(y) :: x == y)
    && (forall x, y | p.hash(x) == p.hash(y) :: x == y)
    && (forall x :: '\0' !in p.sha(x))
  }

  lemma PlainRow(p: Platform, limits: Limits, row: Row)
    requires Injective(p) && Relative(row.path, p.reserved).Ok? && Decode(p, row, limits.file).Ok?
    ensures PlainEntry(DigestEntry(row.path, row.sha, row.rawSize))
  {}

  lemma IntactEntries(p: Platform, limits: Limits, meta: Metadata, rows: seq<Row>)
    requires Injective(p) && Intact(p, limits, meta, rows)
    ensures forall e | e in SortByPath(DigestEntries(rows)) :: PlainEntry(e)
  {
    forall i | 0 <= i < |rows| ensures PlainEntry(DigestEntries(rows)[i]) {
      assert Relative(PathTexts(rows)[i], p.reserved).Ok?;
      PlainRow(p, limits, rows[i]);
    }
    SortedMembers(DigestEntries(rows));
  }

  lemma SortedMembers(entries: seq<DigestEntry>)
    requires forall i | 0 <= i < |entries| :: PlainEntry(entries[i])
    ensures forall e | e in SortByPath(entries) :: PlainEntry(e)
  {
    forall e | e in SortByPath(entries) ensures PlainEntry(e) { assert e in multiset(entries); }
  }

  lemma SameEntries(p: Platform, limits: Limits, sources: seq<Source>, rows: seq<Row>)
    requires Inverse(p) && Injective(p) && Capturable(p, limits, sources)
    requires Intact(p, limits, MetadataOf(p, sources), rows)
    ensures multiset(DigestEntries(rows)) == multiset(DigestEntries(RowsOf(p, sources)))
  {
    var mine, theirs := SortByPath(DigestEntries(rows)), SortByPath(DigestEntries(RowsOf(p, sources)));
    CapturedIntact(p, limits, sources);
    IntactEntries(p, limits, MetadataOf(p, sources), rows);
    IntactEntries(p, limits, MetadataOf(p, sources), RowsOf(p, sources));
    assert p.hash(Frame(mine)) == p.hash(Frame(theirs));
    FrameInjective(mine, theirs);
  }

  /** The row holds the captured file's bytes under its path. */
  predicate SameFile(p: Platform, limits: Limits, row: Row, source: Source) {
    row.path == source.path && Decode(p, row, limits.file) == Ok(source.content)
  }

  lemma EntryMatches(a: seq<DigestEntry>, b: seq<DigestEntry>, i: nat) returns (k: nat)
    requires multiset(a) == multiset(b) && i < |a|
    ensures k < |b| && b[k] == a[i]
  {
    assert a[i] in multiset(b);
    k :| k < |b| && b[k] == a[i];
  }

  /** Any row of a set that passes validation against the metadata of a captured set holds a captured file. */
  lemma EveryRowCaptured(p: Platform, limits: Limits, sources: seq<Source>, rows: seq<Row>, i: nat) returns (k: nat)
    requires Inverse(p) && Injective(p) && Capturable(p, limits, sources)
    requires Intact(p, limits, MetadataOf(p, sources), rows) && i < |rows|
    ensures k < |sources| && SameFile(p, limits, rows[i], sources[k])
  {
    SameEntries(p, limits, sources, rows);
    k := EntryMatches(DigestEntries(rows), DigestEntries(RowsOf(p, sources)), i);
    SameContent(p, limits, rows[i], sources[k]);
  }

  /** And no captured file is missing from it. */
  lemma EveryFilePresent(p: Platform, limits: Limits, sources: seq<Source>, rows: seq<Row>, k: nat) returns (i: nat)
    requires Inverse(p) && Injective(p) && Capturable(p, limits, sources)
    requires Intact(p, limits, MetadataOf(p, sources), rows) && k < |sources|
    ensures |rows| == |sources| && i < |rows| && SameFile(p, limits, rows[i], sources[k])
  {
    SameEntries(p, limits, sources, rows);
    i := EntryMatches(DigestEntries(RowsOf(p, sources)), DigestEntries(rows), k);
    SameContent(p, limits, rows[i], sources[k]);
  }

  lemma SameContent(p: Platform, limits: Limits, row: Row, source: Source)
    requires Injective(p) && Decode(p, row, limits.file).Ok? && row.sha == p.sha(source.content)
    ensures Decode(p, row, limits.file) == Ok(source.content)
  {}

  // ---- Materialization ----

  function ItemsOf(p: Platform, limits: Limits, rows: seq<Row>): (items: seq<Item>)
    requires Decodable(p, limits, rows)
    ensures |items| == |rows|
  {
    seq(|rows|, i requires 0 <= i < |rows| && Relative(rows[i].path, p.reserved).Ok? && Decode(p, rows[i], limits.file).Ok? =>
      Item(Relative(rows[i].path, p.reserved).value, Decode(p, rows[i], limits.file).value, rows[i].executable))
  }

  lemma IntactItems(p: Platform, limits: Limits, meta: Metadata, rows: seq<Row>)
    requires Intact(p, limits, meta, rows)
    ensures Decodable(p, limits, rows)
    ensures Rooted(ItemsOf(p, limits, rows)) && Legal(p.fold, Paths(ItemsOf(p, limits, rows)))
  {
    forall i | 0 <= i < |rows| ensures Relative(rows[i].path, p.reserved).Ok? {
      assert Relative(PathTexts(rows)[i], p.reserved).Ok?;
    }
    assert Paths(ItemsOf(p, limits, rows)) == Parsed(PathTexts(rows), p.reserved);
  }

  predicate Decodable(p: Platform, limits: Limits, rows: seq<Row>) {
    forall i | 0 <= i < |rows| :: Relative(rows[i].path, p.reserved).Ok? && Decode(p, rows[i], limits.file).Ok?
  }

  method DecodeAll(p: Platform, limits: Limits, rows: seq<Row>) returns (items: seq<Item>)
    requires Decodable(p, limits, rows)
    ensures items == ItemsOf(p, limits, rows)
  {
    items := [];
    var i := 0;
    while i < |rows|
      invariant 0 <= i <= |rows| && items == ItemsOf(p, limits, rows)[..i]
    {
      var relative, content := Relative(rows[i].path, p.reserved), Decode(p, rows[i], limits.file);
      items := items + [Item(relative.value, content.value, rows[i].executable)];
      i := i + 1;
    }
  }

  /** A sealed set into an empty directory: every file with its path, bytes and flag, and never a collision. */
  method MaterializeSet(p: Platform, limits: Limits, stored: Option<StoredSet>, destination: Workspace)
    returns (failed: Option<SetError>)
    requires destination.fold == p.fold
    modifies destination
    ensures failed.None? <==> old(destination.entries) == EMPTY && stored.Some? && stored.value.state == Sealed
                              && Intact(p, limits, stored.value.meta, stored.value.rows)
    ensures failed.None? ==> Decodable(p, limits, stored.value.rows)
    ensures failed.None? ==> Reproduces(p.fold, destination.entries, ItemsOf(p, limits, stored.value.rows))
    ensures failed.Some? ==> destination.entries == old(destination.entries)
    ensures failed == Some(DestinationNotEmpty) <==> old(destination.entries) != EMPTY
    ensures failed == Some(Unsealed) <==>
      old(destination.entries) == EMPTY && (stored.None? || stored.value.state != Sealed)
  {
    if destination.entries != EMPTY { return Some(DestinationNotEmpty); }
    if stored.None? || stored.value.state != Sealed { return Some(Unsealed); }
    var meta, rows := stored.value.meta, stored.value.rows;
    failed := Validate(p, limits, meta, rows);
    if failed.None? {
      IntactItems(p, limits, meta, rows);
      var items := DecodeAll(p, limits, rows);
      LegalIsReproduced(p.fold, items);
      var ok := destination.Materialize(items);
      assert ok;
    }
  }
}
