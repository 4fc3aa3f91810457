/** Artifact paths: which strings are paths, which sets of paths are legal, and what legality is for. */
module ArtifactPaths {
  import opened Common

  type Path = seq<string>   // components

  datatype PathError = NotRelative | UnsafeSegments | ReservedName | CaseCollision | ParentConflict

  // ---- One path ----

  function Split(value: string): (parts: Path)
    ensures |parts| > 0
  {
    if value == "" then [""]
    else
      var rest := Split(value[1..]);
      if value[0] == '/' then [""] + rest else [[value[0]] + rest[0]] + rest[1..]
  }

  function Join(parts: Path): string
    requires parts != []
  {
    if |parts| == 1 then parts[0] else parts[0] + "/" + Join(parts[1..])
  }

  predicate Forbidden(value: string) {
    value == "" || '\\' in value || ':' in value || '\0' in value || value[0] == '/'
  }

  predicate UnsafePart(part: string) {
    part == "" || part == "." || part == ".." || part[|part| - 1] == ' ' || part[|part| - 1] == '.'
  }

  /** `reserved` tells the names that some platform keeps for devices. */
  function Relative(value: string, reserved: string -> bool): Result<Path, PathError> {
    if Forbidden(value) then Err(NotRelative)
    else if exists part | part in Split(value) :: UnsafePart(part) then Err(UnsafeSegments)
    else if exists part | part in Split(value) :: reserved(part) then Err(ReservedName)
    else Ok(Split(value))
  }

  lemma {:induction false} JoinSplit(value: string)
    ensures Join(Split(value)) == value
  {
    if value != "" {
      JoinSplit(value[1..]);
      var rest := Split(value[1..]);
      if value[0] == '/' {
        assert Split(value)[1..] == rest;
        assert value == "/" + value[1..];
      } else if |rest| == 1 {
        assert Split(value) == [[value[0]] + rest[0]];
      } else {
        assert Split(value)[1..] == rest[1..];
        assert [value[0]] + (rest[0] + "/" + Join(rest[1..])) == [value[0]] + rest[0] + "/" + Join(rest[1..]);
      }
    }
  }

  lemma {:induction false} SplitPart(part: string, tail: string)
    requires '/' !in part
    ensures Split(part) == [part]
    ensures Split(part + "/" + tail) == [part] + Split(tail)
    decreases |part|
  {
    var value := part + "/" + tail;
    if part == "" {
      assert value[1..] == tail;
    } else {
      SplitPart(part[1..], tail);
      assert value[1..] == part[1..] + "/" + tail;
      assert part[0] in part && [part[0]] + part[1..] == part;
    }
  }

  lemma {:induction false} SplitJoin(parts: Path)
    requires parts != [] && forall part | part in parts :: '/' !in part
    ensures Split(Join(parts)) == parts
  {
    if |parts| == 1 {
      SplitPart(parts[0], "");
    } else {
      assert parts[0] in parts && parts == [parts[0]] + parts[1..];
      SplitPart(parts[0], Join(parts[1..]));
      SplitJoin(parts[1..]);
    }
  }

  lemma {:induction false} SplitParts(value: string)
    ensures forall part | part in Split(value) :: '/' !in part
  {
    if value != "" { SplitParts(value[1..]); }
  }

  predicate CleanPart(part: string, reserved: string -> bool) {
    && part != "" && part != "." && part != ".." && part[|part| - 1] != ' ' && part[|part| - 1] != '.'
    && !reserved(part) && '/' !in part && '\\' !in part && ':' !in part && '\0' !in part
  }

  lemma {:induction false} JoinCharacters(parts: Path, c: char)
    requires parts != [] && c != '/'
    ensures c in Join(parts) <==> exists part | part in parts :: c in part
  {
    if |parts| > 1 {
      JoinCharacters(parts[1..], c);
      if c in parts[0] { assert parts[0] in parts; }
      if exists part | part in parts[1..] :: c in part {
        var part :| part in parts[1..] && c in part;
        assert part in parts;
      }
      assert forall part | part in parts :: part == parts[0] || part in parts[1..];
    }
  }

  /** The accepted strings are exactly the joins of clean components, and the components can be read back. */
  lemma RelativeExact(parts: Path, reserved: string -> bool)
    requires parts != [] && forall part | part in parts :: '/' !in part
    ensures Relative(Join(parts), reserved) == Ok(parts) <==> forall part | part in parts :: CleanPart(part, reserved)
  {
    SplitJoin(parts);
    JoinCharacters(parts, '\\');
    JoinCharacters(parts, ':');
    JoinCharacters(parts, '\0');
    assert parts[0] in parts;
    if forall part | part in parts :: CleanPart(part, reserved) {
      assert CleanPart(parts[0], reserved) && Join(parts)[0] == parts[0][0] && parts[0][0] in parts[0];
    }
  }

  lemma RelativeReadsBack(value: string, reserved: string -> bool)
    requires Relative(value, reserved).Ok?
    ensures Join(Relative(value, reserved).value) == value
    ensures forall part | part in Relative(value, reserved).value :: CleanPart(part, reserved)
  {
    JoinSplit(value);
    SplitParts(value);
    RelativeExact(Split(value), reserved);
  }

  // ---- Sets of paths, up to case ----

  /** `fold` is case folding of one component. */
  function Fold(fold: string -> string, path: Path): (folded: Path)
    ensures |folded| == |path|
  {
    seq(|path|, i requires 0 <= i < |path| => fold(path[i]))
  }

  lemma FoldPrefix(fold: string -> string, path: Path, k: nat)
    requires k <= |path|
    ensures Fold(fold, path[..k]) == Fold(fold, path)[..k]
  {}

  /** Directories and files that two paths have in common up to case are spelled alike. */
  predicate SpelledAlike(fold: string -> string, p: Path, q: Path) {
    forall k | 0 <= k <= |p| && k <= |q| :: Fold(fold, p[..k]) == Fold(fold, q[..k]) ==> p[..k] == q[..k]
  }

  /** Folded, one path is a proper ancestor of the other. */
  predicate Above(fold: string -> string, p: Path, q: Path) {
    |p| < |q| && Fold(fold, p) == Fold(fold, q)[..|p|]
  }

  predicate NoCollision(fold: string -> string, paths: seq<Path>) {
    forall i, j | 0 <= i < j < |paths| :: SpelledAlike(fold, paths[i], paths[j]) && Fold(fold, paths[i]) != Fold(fold, paths[j])
  }

  predicate NoAncestor(fold: string -> string, paths: seq<Path>) {
    forall i, j | 0 <= i < |paths| && 0 <= j < |paths| :: !Above(fold, paths[i], paths[j])
  }

  predicate Legal(fold: string -> string, paths: seq<Path>) {
    NoCollision(fold, paths) && NoAncestor(fold, paths)
  }

  // ---- The check as it runs ----

  /** The table of spellings holds every prefix of every path so far, and only those. */
  predicate Spelled(fold: string -> string, spelling: map<Path, Path>, paths: seq<Path>) {
    && (forall i, k | 0 <= i < |paths| && 0 <= k <= |paths[i]| ::
          Fold(fold, paths[i][..k]) in spelling && spelling[Fold(fold, paths[i][..k])] == paths[i][..k])
    && (forall f | f in spelling :: exists i, k :: 0 <= i < |paths| && 0 <= k <= |paths[i]| && f == Fold(fold, paths[i][..k]))
  }

  predicate Fits(fold: string -> string, spelling: map<Path, Path>, path: Path, k: nat)
    requires k <= |path|
  {
    Fold(fold, path[..k]) in spelling ==> spelling[Fold(fold, path[..k])] == path[..k]
  }

  predicate AllFit(fold: string -> string, spelling: map<Path, Path>, path: Path, low: nat) {
    forall k: nat | low <= k <= |path| :: Fits(fold, spelling, path, k)
  }

  lemma AllFitMore(fold: string -> string, spelling: map<Path, Path>, path: Path, k: nat)
    requires k <= |path|
    ensures AllFit(fold, spelling, path, k) <==> AllFit(fold, spelling, path, k + 1) && Fits(fold, spelling, path, k)
    ensures !Fits(fold, spelling, path, k) ==> !AllFit(fold, spelling, path, 0)
  {}

  /** The table after noting the prefixes of a path from length k on: the first spelling stays. */
  function Noted(fold: string -> string, spelling: map<Path, Path>, path: Path, k: nat): map<Path, Path>
    requires k <= |path| + 1
    decreases |path| + 1 - k
  {
    if k > |path| then spelling
    else
      var longer, folded := Noted(fold, spelling, path, k + 1), Fold(fold, path[..k]);
      if folded in longer then longer else longer[folded := path[..k]]
  }

  lemma {:induction false} NotedEntries(fold: string -> string, spelling: map<Path, Path>, path: Path, k: nat)
    requires k <= |path| + 1
    ensures var table := Noted(fold, spelling, path, k);
      && (forall f | f in spelling :: f in table && table[f] == spelling[f])
      && (forall f | f in table && f !in spelling :: IsPrefixEntry(fold, path, k, f, table[f]))
    decreases |path| + 1 - k
  {
    if k <= |path| {
      NotedEntries(fold, spelling, path, k + 1);
      assert IsPrefixEntry(fold, path, k, Fold(fold, path[..k]), path[..k]);
    }
  }

  /** The entry of a prefix of at least k components. */
  predicate IsPrefixEntry(fold: string -> string, path: Path, k: nat, folded: Path, name: Path) {
    k <= |folded| <= |path| && folded == Fold(fold, path[..|folded|]) && name == path[..|folded|]
  }

  lemma {:induction false} NotedPrefix(fold: string -> string, spelling: map<Path, Path>, path: Path, k: nat, j: nat)
    requires k <= j <= |path|
    ensures Fold(fold, path[..j]) in Noted(fold, spelling, path, k)
    decreases |path| + 1 - k
  {
    if k < j { NotedPrefix(fold, spelling, path, k + 1, j); }
  }

  /** Whether the next shorter prefix is known was decided before this path was noted. */
  lemma NotedHere(fold: string -> string, spelling: map<Path, Path>, path: Path, k: nat)
    requires k <= |path|
    ensures var folded, table := Fold(fold, path[..k]), Noted(fold, spelling, path, k + 1);
      (folded in table <==> folded in spelling) && (folded in spelling ==> table[folded] == spelling[folded])
  {
    NotedEntries(fold, spelling, path, k + 1);
  }

  /** A path and its parents, from the path up to the root. */
  method Note(fold: string -> string, spelling: map<Path, Path>, path: Path) returns (ok: bool, spelling': map<Path, Path>)
    ensures ok <==> AllFit(fold, spelling, path, 0)
    ensures ok ==> spelling' == Noted(fold, spelling, path, 0)
  {
    spelling' := spelling;
    var k := |path| + 1;
    while k > 0
      invariant 0 <= k <= |path| + 1
      invariant AllFit(fold, spelling, path, k) && spelling' == Noted(fold, spelling, path, k)
    {
      k := k - 1;
      NotedHere(fold, spelling, path, k);
      AllFitMore(fold, spelling, path, k);
      var name := path[..k];
      var folded := Fold(fold, name);
      if folded in spelling' {
        if spelling'[folded] != name { return false, spelling'; }
      } else {
        spelling' := spelling'[folded := name];
      }
    }
    return true, spelling';
  }

  lemma OldAndNewPrefix(fold: string -> string, spelling: map<Path, Path>, paths: seq<Path>, path: Path, i: nat, k: nat)
    requires Spelled(fold, spelling, paths) && AllFit(fold, spelling, path, 0)
    requires i <= |paths| && k <= |(paths + [path])[i]|
    ensures var prefix, more := (paths + [path])[i][..k], Noted(fold, spelling, path, 0);
      Fold(fold, prefix) in more && more[Fold(fold, prefix)] == prefix
  {
    NotedEntries(fold, spelling, path, 0);
    if i < |paths| {
      assert (paths + [path])[i] == paths[i];
    } else {
      NotedPrefix(fold, spelling, path, 0, k);
      assert Fits(fold, spelling, path, k);
    }
  }

  lemma SpelledMore(fold: string -> string, spelling: map<Path, Path>, paths: seq<Path>, path: Path)
    requires Spelled(fold, spelling, paths) && AllFit(fold, spelling, path, 0)
    ensures Spelled(fold, Noted(fold, spelling, path, 0), paths + [path])
  {
    var more, all := Noted(fold, spelling, path, 0), paths + [path];
    forall i, k | 0 <= i < |all| && 0 <= k <= |all[i]|
      ensures Fold(fold, all[i][..k]) in more && more[Fold(fold, all[i][..k])] == all[i][..k]
    {
      OldAndNewPrefix(fold, spelling, paths, path, i, k);
    }
    forall f | f in more ensures exists i, k :: 0 <= i < |all| && 0 <= k <= |all[i]| && f == Fold(fold, all[i][..k]) {
      SomePrefix(fold, spelling, paths, path, f);
    }
  }

  lemma SomePrefix(fold: string -> string, spelling: map<Path, Path>, paths: seq<Path>, path: Path, f: Path)
    requires Spelled(fold, spelling, paths) && f in Noted(fold, spelling, path, 0)
    ensures var all := paths + [path]; exists i, k :: 0 <= i < |all| && 0 <= k <= |all[i]| && f == Fold(fold, all[i][..k])
  {
    var all := paths + [path];
    NotedEntries(fold, spelling, path, 0);
    if f !in spelling {
      assert f == Fold(fold, all[|paths|][..|f|]);
    } else {
      var i, k :| 0 <= i < |paths| && 0 <= k <= |paths[i]| && f == Fold(fold, paths[i][..k]);
      assert f == Fold(fold, all[i][..k]);
    }
  }

  /** The table accepts a path exactly when it is spelled like every path before it. */
  lemma FitsExact(fold: string -> string, spelling: map<Path, Path>, paths: seq<Path>, path: Path)
    requires Spelled(fold, spelling, paths)
    ensures AllFit(fold, spelling, path, 0) <==> forall i | 0 <= i < |paths| :: SpelledAlike(fold, paths[i], path)
  {
    if AllFit(fold, spelling, path, 0) {
      forall i, k | 0 <= i < |paths| && 0 <= k <= |paths[i]| && k <= |path| && Fold(fold, paths[i][..k]) == Fold(fold, path[..k])
        ensures paths[i][..k] == path[..k]
      {
        assert Fits(fold, spelling, path, k);
      }
    }
    if forall i | 0 <= i < |paths| :: SpelledAlike(fold, paths[i], path) {
      forall k: nat | k <= |path| ensures Fits(fold, spelling, path, k) {
        if Fold(fold, path[..k]) in spelling {
          var i, j :| 0 <= i < |paths| && 0 <= j <= |paths[i]| && Fold(fold, path[..k]) == Fold(fold, paths[i][..j]);
          assert SpelledAlike(fold, paths[i], path);
        }
      }
    }
  }

  predicate AllRelative(values: seq<string>, reserved: string -> bool) {
    forall i | 0 <= i < |values| :: Relative(values[i], reserved).Ok?
  }

  function Parsed(values: seq<string>, reserved: string -> bool): (paths: seq<Path>)
    requires AllRelative(values, reserved)
    ensures |paths| == |values|
  {
    seq(|values|, i requires 0 <= i < |values| => Relative(values[i], reserved).value)
  }

  /** The folded paths seen so far. */
  ghost predicate Seen(fold: string -> string, seen: set<Path>, paths: seq<Path>) {
    forall f :: f in seen <==> exists i :: 0 <= i < |paths| && f == Fold(fold, paths[i])
  }

  /** What goes wrong with one more path after legal ones. */
  predicate Collides(fold: string -> string, paths: seq<Path>, path: Path) {
    exists i :: 0 <= i < |paths| && (!SpelledAlike(fold, paths[i], path) || Fold(fold, paths[i]) == Fold(fold, path))
  }

  lemma NoCollisionMore(fold: string -> string, paths: seq<Path>, path: Path)
    requires NoCollision(fold, paths)
    ensures NoCollision(fold, paths + [path]) <==> !Collides(fold, paths, path)
  {
    var all := paths + [path];
    if !Collides(fold, paths, path) {
      forall i, j | 0 <= i < j < |all| ensures SpelledAlike(fold, all[i], all[j]) && Fold(fold, all[i]) != Fold(fold, all[j]) {
        assert all[i] == paths[i];
        if j < |paths| { assert all[j] == paths[j]; }
      }
    } else {
      var i :| 0 <= i < |paths| && (!SpelledAlike(fold, paths[i], path) || Fold(fold, paths[i]) == Fold(fold, path));
      assert all[i] == paths[i] && all[|paths|] == path;
    }
  }

  lemma CollisionStays(fold: string -> string, paths: seq<Path>, n: nat)
    requires n <= |paths| && !NoCollision(fold, paths[..n])
    ensures !NoCollision(fold, paths)
  {
    var i, j :| 0 <= i < j < n
      && !(SpelledAlike(fold, paths[..n][i], paths[..n][j]) && Fold(fold, paths[..n][i]) != Fold(fold, paths[..n][j]));
    assert paths[..n][i] == paths[i] && paths[..n][j] == paths[j];
  }

  predicate CollidesWithin(values: seq<string>, reserved: string -> bool, fold: string -> string, n: nat)
    requires n <= |values|
  {
    AllRelative(values[..n], reserved) && !NoCollision(fold, Parsed(values[..n], reserved))
  }

  method AddPath(fold: string -> string, spelling: map<Path, Path>, seen: set<Path>, ghost paths: seq<Path>, path: Path)
    returns (ok: bool, spelling': map<Path, Path>, seen': set<Path>)
    requires NoCollision(fold, paths) && Spelled(fold, spelling, paths) && Seen(fold, seen, paths)
    ensures ok <==> NoCollision(fold, paths + [path])
    ensures ok ==> Spelled(fold, spelling', paths + [path]) && Seen(fold, seen', paths + [path])
  {
    NoCollisionMore(fold, paths, path);
    FitsExact(fold, spelling, paths, path);
    ok, spelling' := Note(fold, spelling, path);
    var folded := Fold(fold, path);
    seen' := seen + {folded};
    if !ok || folded in seen {
      assert Collides(fold, paths, path);
      return false, spelling', seen';
    }
    SpelledMore(fold, spelling, paths, path);
    SeenMore(fold, seen, paths, path);
  }

  /** First loop: each path in turn must parse, be spelled like the others, and be new. */
  method CheckSpelling(values: seq<string>, reserved: string -> bool, fold: string -> string)
    returns (checked: Result<seq<Path>, PathError>, seen: set<Path>)
    ensures checked.Ok? <==> AllRelative(values, reserved) && NoCollision(fold, Parsed(values, reserved))
    ensures checked.Ok? ==> checked.value == Parsed(values, reserved) && Seen(fold, seen, checked.value)
    ensures checked.Err? ==> checked.error != ParentConflict
    ensures checked.Err? && checked.error != CaseCollision ==>
      exists i :: 0 <= i < |values| && Relative(values[i], reserved) == Err(checked.error)
    ensures checked == Err(CaseCollision) ==> exists n :: 0 < n <= |values| && CollidesWithin(values, reserved, fold, n)
  {
    var paths: seq<Path> := [];
    var spelling: map<Path, Path> := map[];
    seen := {};
    var i := 0;
    while i < |values|
      invariant 0 <= i <= |values| && AllRelative(values[..i], reserved) && paths == Parsed(values[..i], reserved)
      invariant NoCollision(fold, paths) && Spelled(fold, spelling, paths) && Seen(fold, seen, paths)
    {
      var relative := Relative(values[i], reserved);
      if relative.Err? { return Err(relative.error), seen; }
      var path := relative.value;
      OneMoreValue(values, reserved, i);
      var ok;
      ok, spelling, seen := AddPath(fold, spelling, seen, paths, path);
      if !ok {
        assert CollidesWithin(values, reserved, fold, i + 1);
        if AllRelative(values, reserved) { CollidesLater(values, reserved, fold, i + 1); }
        return Err(CaseCollision), seen;
      }
      paths := paths + [path];
      i := i + 1;
    }
    assert values[..i] == values;
    return Ok(paths), seen;
  }

  lemma OneMoreValue(values: seq<string>, reserved: string -> bool, i: nat)
    requires i < |values| && AllRelative(values[..i], reserved) && Relative(values[i], reserved).Ok?
    ensures AllRelative(values[..i + 1], reserved)
    ensures Parsed(values[..i + 1], reserved) == Parsed(values[..i], reserved) + [Relative(values[i], reserved).value]
  {
    assert values[..i + 1] == values[..i] + [values[i]];
  }

  lemma CollidesLater(values: seq<string>, reserved: string -> bool, fold: string -> string, n: nat)
    requires n <= |values| && AllRelative(values, reserved) && AllRelative(values[..n], reserved)
    requires !NoCollision(fold, Parsed(values[..n], reserved))
    ensures !NoCollision(fold, Parsed(values, reserved))
  {
    assert Parsed(values[..n], reserved) == Parsed(values, reserved)[..n];
    CollisionStays(fold, Parsed(values, reserved), n);
  }

  lemma SeenMore(fold: string -> string, seen: set<Path>, paths: seq<Path>, path: Path)
    requires Seen(fold, seen, paths)
    ensures Seen(fold, seen + {Fold(fold, path)}, paths + [path])
  {
    var all := paths + [path];
    forall f ensures f in seen + {Fold(fold, path)} <==> exists i :: 0 <= i < |all| && f == Fold(fold, all[i]) {
      if f in seen {
        var i :| 0 <= i < |paths| && f == Fold(fold, paths[i]);
        assert all[i] == paths[i];
      } else if f == Fold(fold, path) {
        assert all[|paths|] == path;
      }
    }
  }

  /** Second loop: no folded path may have another one among its parents. */
  method CheckParents(ghost fold: string -> string, seen: set<Path>, ghost paths: seq<Path>) returns (ok: bool)
    requires Seen(fold, seen, paths)
    ensures ok <==> NoAncestor(fold, paths)
  {
    var left := seen;
    while left != {}
      invariant left <= seen && forall f, k: nat | f in seen - left && k < |f| :: f[..k] !in seen
      decreases left
    {
      var value :| value in left;
      if exists k: nat | k < |value| :: value[..k] in seen {
        ParentFound(fold, seen, paths, value);
        return false;
      }
      left := left - {value};
    }
    forall i, j | 0 <= i < |paths| && 0 <= j < |paths| ensures !Above(fold, paths[i], paths[j]) {
      assert Fold(fold, paths[i]) in seen && Fold(fold, paths[j]) in seen;
    }
    return true;
  }

  lemma ParentFound(fold: string -> string, seen: set<Path>, paths: seq<Path>, value: Path)
    requires Seen(fold, seen, paths) && value in seen && exists k: nat | k < |value| :: value[..k] in seen
    ensures !NoAncestor(fold, paths)
  {
    var k: nat :| k < |value| && value[..k] in seen;
    var i :| 0 <= i < |paths| && value[..k] == Fold(fold, paths[i]);
    var j :| 0 <= j < |paths| && value == Fold(fold, paths[j]);
    assert Above(fold, paths[i], paths[j]);
  }

  /** The whole check accepts exactly the legal lists of paths; the values come in sorted order. */
  method CheckPaths(values: seq<string>, reserved: string -> bool, fold: string -> string)
    returns (checked: Result<seq<Path>, PathError>)
    ensures checked.Ok? <==> AllRelative(values, reserved) && Legal(fold, Parsed(values, reserved))
    ensures checked.Ok? ==> checked.value == Parsed(values, reserved)
    ensures checked == Err(ParentConflict) <==>
      (AllRelative(values, reserved)
       && NoCollision(fold, Parsed(values, reserved)) && !NoAncestor(fold, Parsed(values, reserved)))
  {
    var seen;
    checked, seen := CheckSpelling(values, reserved, fold);
    if checked.Err? { return; }
    var ok := CheckParents(fold, seen, checked.value);
    if !ok { checked := Err(ParentConflict); }
  }
}
