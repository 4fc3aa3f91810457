/** Writing a list of files into an empty directory of a file system that ignores case. */
module Workspaces {
  import opened Common
  import opened ArtifactPaths

  type Content = seq<nat>   // bytes

  datatype Item = Item(path: Path, content: Content, executable: bool)
  datatype Entry = Dir(name: string) | File(name: string, content: Content, executable: bool)

  /** Entries below the destination, by folded path; each keeps the spelling it was created with. */
  type Entries = map<Path, Entry>

  const EMPTY: Entries := map[[] := Dir("")]

  function Last(path: Path): string
    requires path != []
  {
    path[|path| - 1]
  }

  /** Parents must not be files, and the file itself must not exist. */
  predicate Accepts(entries: Entries, folded: Path) {
    (forall f | f in entries && f < folded :: entries[f].Dir?) && folded !in entries
  }

  /** The first n - 1 directories above a path, where they are missing. */
  function WithParents(entries: Entries, path: Path, folded: Path, n: nat): Entries
    requires n <= |path| == |folded|
  {
    if n <= 1 then entries
    else
      var before, parent := WithParents(entries, path, folded, n - 1), folded[..n - 1];
      if parent in before then before else before[parent := Dir(path[n - 2])]
  }

  function Put(fold: string -> string, entries: Entries, item: Item): Entries
    requires item.path != []
  {
    WithParents(entries, item.path, Fold(fold, item.path), |item.path|)
      [Fold(fold, item.path) := File(Last(item.path), item.content, item.executable)]
  }

  predicate Rooted(items: seq<Item>) {
    forall i | 0 <= i < |items| :: items[i].path != []
  }

  /** All files in turn, or nothing when one of them collides. */
  function PutAll(fold: string -> string, items: seq<Item>): Option<Entries>
    requires Rooted(items)
  {
    if items == [] then Some(EMPTY)
    else
      var last := items[|items| - 1];
      match PutAll(fold, items[..|items| - 1])
      case None => None
      case Some(entries) => if Accepts(entries, Fold(fold, last.path)) then Some(Put(fold, entries, last)) else None
  }

  /** Making parents leaves what was there, and adds the missing directories shorter than n. */
  lemma {:induction false} ParentsBelow(entries: Entries, path: Path, folded: Path, n: nat)
    requires n <= |path| == |folded|
    ensures var more := WithParents(entries, path, folded, n);
      && (forall f | f in entries :: f in more && more[f] == entries[f])
      && (forall f | f in more && f !in entries :: 0 < |f| < n && f < folded && more[f] == Dir(path[|f| - 1]))
      && (forall f | 0 < |f| < n && f < folded :: f in more)
  {
    if n > 1 {
      ParentsBelow(entries, path, folded, n - 1);
      forall f: Path | |f| == n - 1 && f < folded ensures f == folded[..n - 1] {}
    }
  }

  /** The parent of length k: whether it is there is decided by the tree from before. */
  lemma OneMoreParent(entries: Entries, path: Path, folded: Path, k: nat)
    requires 0 < k < |path| == |folded|
    ensures var parent, more := folded[..k], WithParents(entries, path, folded, k);
      && (parent in more <==> parent in entries) && (parent in entries ==> more[parent] == entries[parent])
      && WithParents(entries, path, folded, k + 1) == if parent in more then more else more[parent := Dir(path[k - 1])]
  {
    ParentsBelow(entries, path, folded, k);
  }

  /** No parent shorter than n is a file. */
  predicate ParentsClear(entries: Entries, folded: Path, n: nat) {
    forall f | f in entries && f < folded && |f| < n :: entries[f].Dir?
  }

  lemma RootClear(entries: Entries, folded: Path)
    requires [] in entries && entries[[]].Dir?
    ensures ParentsClear(entries, folded, 1)
  {}

  lemma OneMoreClear(entries: Entries, folded: Path, k: nat)
    requires k < |folded| && ParentsClear(entries, folded, k)
    ensures ParentsClear(entries, folded, k + 1) <==> (folded[..k] in entries ==> entries[folded[..k]].Dir?)
    ensures ParentsClear(entries, folded, |folded|) ==> ParentsClear(entries, folded, k + 1)
  {
    assert folded[..k] < folded && |folded[..k]| == k;
    assert forall f | f in entries && f < folded && |f| == k :: f == folded[..k];
  }

  lemma AllClear(entries: Entries, folded: Path)
    ensures ParentsClear(entries, folded, |folded|) <==> forall f | f in entries && f < folded :: entries[f].Dir?
  {}

  // ---- The directory tree as it is written ----

  class Workspace {
    const fold: string -> string
    var entries: Entries

    constructor (fold: string -> string)
      ensures this.fold == fold && entries == EMPTY
    {
      this.fold, entries := fold, EMPTY;
    }

    /** Creates the missing parent directories; fails at a file. */
    method MakeParents(path: Path) returns (ok: bool)
      requires path != [] && [] in entries && entries[[]].Dir?
      modifies this
      ensures ok <==> ParentsClear(old(entries), Fold(fold, path), |path|)
      ensures ok ==> entries == WithParents(old(entries), path, Fold(fold, path), |path|)
    {
      var folded := Fold(fold, path);
      var k := 1;
      RootClear(entries, folded);
      while k < |path|
        invariant 1 <= k <= |path| && entries == WithParents(old(entries), path, folded, k)
        invariant ParentsClear(old(entries), folded, k)
      {
        var parent := folded[..k];
        OneMoreParent(old(entries), path, folded, k);
        OneMoreClear(old(entries), folded, k);
        if parent !in entries {
          entries := entries[parent := Dir(path[k - 1])];
        } else if entries[parent].File? {
          return false;
        }
        k := k + 1;
      }
      return true;
    }

    /** Creates a file that must not exist yet. */
    method CreateExclusive(path: Path, content: Content, executable: bool) returns (ok: bool)
      requires path != []
      modifies this
      ensures ok <==> Fold(fold, path) !in old(entries)
      ensures entries == if ok then old(entries)[Fold(fold, path) := File(Last(path), content, executable)] else old(entries)
    {
      var folded := Fold(fold, path);
      if folded in entries { return false; }
      entries := entries[folded := File(Last(path), content, false)];
      if executable { entries := entries[folded := entries[folded].(executable := true)]; }
      return true;
    }

    method Write(item: Item) returns (ok: bool)
      requires item.path != [] && [] in entries && entries[[]].Dir?
      modifies this
      ensures ok <==> Accepts(old(entries), Fold(fold, item.path))
      ensures ok ==> entries == Put(fold, old(entries), item)
    {
      ParentsBelow(entries, item.path, Fold(fold, item.path), |item.path|);
      AllClear(entries, Fold(fold, item.path));
      ok := MakeParents(item.path);
      if ok { ok := CreateExclusive(item.path, item.content, item.executable); }
    }

    method Materialize(items: seq<Item>) returns (ok: bool)
      requires Rooted(items) && entries == EMPTY
      modifies this
      ensures ok <==> PutAll(fold, items).Some?
      ensures ok ==> PutAll(fold, items) == Some(entries)
    {
      var i := 0;
      while i < |items|
        invariant 0 <= i <= |items| && PutAll(fold, items[..i]) == Some(entries)
      {
        RootStays(fold, items[..i]);
        assert items[..i + 1][..i] == items[..i];
        ok := Write(items[i]);
        if !ok {
          NeverAgain(fold, items, i + 1);
          return false;
        }
        i := i + 1;
      }
      assert items[..i] == items;
      return true;
    }
  }

  lemma {:induction false} RootStays(fold: string -> string, items: seq<Item>)
    requires Rooted(items) && PutAll(fold, items).Some?
    ensures var entries := PutAll(fold, items).value; [] in entries && entries[[]].Dir?
  {
    if items != [] {
      var n := |items| - 1;
      RootStays(fold, items[..n]);
      ParentsBelow(PutAll(fold, items[..n]).value, items[n].path, Fold(fold, items[n].path), |items[n].path|);
    }
  }

  lemma {:induction false} NeverAgain(fold: string -> string, items: seq<Item>, n: nat)
    requires Rooted(items) && n <= |items| && PutAll(fold, items[..n]).None?
    ensures PutAll(fold, items).None?
    decreases |items| - n
  {
    if n < |items| {
      assert items[..n + 1][..n] == items[..n];
      NeverAgain(fold, items, n + 1);
    } else {
      assert items[..n] == items;
    }
  }

  // ---- When writing works, and what it leaves ----

  function Paths(items: seq<Item>): (paths: seq<Path>)
    ensures |paths| == |items|
  {
    seq(|items|, i requires 0 <= i < |items| => items[i].path)
  }

  /** Folded, neither path is the other or an ancestor of it. */
  predicate FoldedApart(f: Path, g: Path) {
    !(f <= g) && !(g <= f)
  }

  predicate Apart(folds: seq<Path>) {
    forall i, j | 0 <= i < j < |folds| :: FoldedApart(folds[i], folds[j])
  }

  /** The tree holds the file with its bytes and flag, below directories. */
  ghost predicate ItemIn(entries: Entries, folded: Path, item: Item) {
    && folded in entries && entries[folded].File?
    && entries[folded].content == item.content && entries[folded].executable == item.executable
    && forall f | f < folded :: f in entries && entries[f].Dir?
  }

  predicate From(folds: seq<Path>, f: Path) {
    exists i :: 0 <= i < |folds| && f <= folds[i]
  }

  function Folds(fold: string -> string, items: seq<Item>): (folds: seq<Path>)
    ensures |folds| == |items|
  {
    seq(|items|, i requires 0 <= i < |items| => Fold(fold, items[i].path))
  }

  /** All the files, their directories, and nothing else. */
  ghost predicate Shape(entries: Entries, folds: seq<Path>, items: seq<Item>)
    requires |folds| == |items|
  {
    && [] in entries && entries[[]].Dir?
    && (forall i | 0 <= i < |items| :: ItemIn(entries, folds[i], items[i]))
    && (forall f | f in entries :: f == [] || From(folds, f))
  }

  lemma PrefixOrSame(f: Path, g: Path)
    ensures f <= g <==> f == g || f < g
  {}

  lemma AcceptedIsApart(entries: Entries, f: Path, item: Item, folded: Path)
    requires ItemIn(entries, f, item) && Accepts(entries, folded)
    ensures FoldedApart(f, folded)
  {
    PrefixOrSame(f, folded);
    PrefixOrSame(folded, f);
  }

  lemma ApartIsAccepted(entries: Entries, folds: seq<Path>, items: seq<Item>, folded: Path)
    requires |folds| == |items| && Shape(entries, folds, items) && folded != []
    requires forall i | 0 <= i < |folds| :: FoldedApart(folds[i], folded)
    ensures Accepts(entries, folded)
  {
    forall f | f in entries && f < folded ensures entries[f].Dir? {
      if f != [] {
        var i :| 0 <= i < |folds| && f <= folds[i];
        PrefixOrSame(f, folds[i]);
        assert ItemIn(entries, folds[i], items[i]) && FoldedApart(folds[i], folded);
      }
    }
    assert !From(folds, folded);
  }

  lemma AcceptsExact(entries: Entries, folds: seq<Path>, items: seq<Item>, folded: Path)
    requires |folds| == |items| && Shape(entries, folds, items) && folded != []
    ensures Accepts(entries, folded) <==> forall i | 0 <= i < |folds| :: FoldedApart(folds[i], folded)
  {
    if Accepts(entries, folded) {
      forall i | 0 <= i < |folds| ensures FoldedApart(folds[i], folded) {
        AcceptedIsApart(entries, folds[i], items[i], folded);
      }
    } else if forall i | 0 <= i < |folds| :: FoldedApart(folds[i], folded) {
      ApartIsAccepted(entries, folds, items, folded);
    }
  }

  lemma PutOldItem(fold: string -> string, entries: Entries, folded: Path, earlier: Item, item: Item)
    requires ItemIn(entries, folded, earlier) && item.path != [] && Accepts(entries, Fold(fold, item.path))
    ensures ItemIn(Put(fold, entries, item), folded, earlier)
  {
    ParentsBelow(entries, item.path, Fold(fold, item.path), |item.path|);
  }

  lemma PutNewItem(fold: string -> string, entries: Entries, item: Item)
    requires [] in entries && entries[[]].Dir? && item.path != [] && Accepts(entries, Fold(fold, item.path))
    ensures ItemIn(Put(fold, entries, item), Fold(fold, item.path), item)
  {
    ParentsBelow(entries, item.path, Fold(fold, item.path), |item.path|);
  }

  lemma PutFrom(fold: string -> string, entries: Entries, folds: seq<Path>, item: Item, f: Path)
    requires item.path != [] && Accepts(entries, Fold(fold, item.path))
    requires f in Put(fold, entries, item) && (f in entries ==> From(folds, f))
    ensures From(folds + [Fold(fold, item.path)], f)
  {
    var folded := Fold(fold, item.path);
    var folds' := folds + [folded];
    ParentsBelow(entries, item.path, folded, |item.path|);
    if f in entries {
      var i :| 0 <= i < |folds| && f <= folds[i];
      assert f <= folds'[i];
    } else {
      assert f <= folds'[|folds|];
    }
  }

  lemma PutShape(fold: string -> string, entries: Entries, folds: seq<Path>, items: seq<Item>, item: Item)
    requires |folds| == |items| && Shape(entries, folds, items) && item.path != []
    requires Accepts(entries, Fold(fold, item.path))
    ensures Shape(Put(fold, entries, item), folds + [Fold(fold, item.path)], items + [item])
  {
    var more, folds', all := Put(fold, entries, item), folds + [Fold(fold, item.path)], items + [item];
    forall i | 0 <= i < |all| ensures ItemIn(more, folds'[i], all[i]) {
      if i < |items| { PutOldItem(fold, entries, folds[i], items[i], item); } else { PutNewItem(fold, entries, item); }
    }
    forall f | f in more && f != [] ensures From(folds', f) { PutFrom(fold, entries, folds, item, f); }
    assert [] in more && more[[]] == entries[[]] by { ParentsBelow(entries, item.path, Fold(fold, item.path), |item.path|); }
  }

  /** Writing succeeds exactly when the files are apart up to case, and then the tree is exactly theirs. */
  lemma {:induction false} PutAllExact(fold: string -> string, items: seq<Item>)
    requires Rooted(items)
    ensures PutAll(fold, items).Some? <==> Apart(Folds(fold, items))
    ensures PutAll(fold, items).Some? ==> Shape(PutAll(fold, items).value, Folds(fold, items), items)
  {
    if items != [] {
      var n := |items| - 1;
      var head, last := items[..n], items[n];
      assert items == head + [last];
      PutAllExact(fold, head);
      FoldsMore(fold, head, last);
      ApartMore(Folds(fold, head), Fold(fold, last.path));
      if PutAll(fold, head).Some? { PutMore(fold, PutAll(fold, head).value, head, last); }
    }
  }

  lemma FoldsMore(fold: string -> string, head: seq<Item>, last: Item)
    ensures Folds(fold, head + [last]) == Folds(fold, head) + [Fold(fold, last.path)]
  {}

  lemma PutMore(fold: string -> string, entries: Entries, head: seq<Item>, last: Item)
    requires Shape(entries, Folds(fold, head), head) && last.path != []
    ensures Accepts(entries, Fold(fold, last.path))
       <==> forall i | 0 <= i < |head| :: FoldedApart(Folds(fold, head)[i], Fold(fold, last.path))
    ensures Accepts(entries, Fold(fold, last.path)) ==>
        Shape(Put(fold, entries, last), Folds(fold, head) + [Fold(fold, last.path)], head + [last])
  {
    AcceptsExact(entries, Folds(fold, head), head, Fold(fold, last.path));
    if Accepts(entries, Fold(fold, last.path)) { PutShape(fold, entries, Folds(fold, head), head, last); }
  }

  lemma ApartMore(folds: seq<Path>, last: Path)
    ensures Apart(folds + [last]) <==> Apart(folds) && forall i | 0 <= i < |folds| :: FoldedApart(folds[i], last)
  {
    var all := folds + [last];
    if Apart(all) {
      forall i, j | 0 <= i < j < |folds| ensures FoldedApart(folds[i], folds[j]) { assert FoldedApart(all[i], all[j]); }
      forall i | 0 <= i < |folds| ensures FoldedApart(folds[i], last) { assert FoldedApart(all[i], all[|folds|]); }
    }
  }

  // ---- Spelling ----

  /** Every directory and the file itself carry the names of the path. */
  ghost predicate NamedAs(entries: Entries, folded: Path, path: Path)
    requires |folded| == |path|
  {
    forall f | f <= folded && f != [] && f in entries :: entries[f].name == path[|f| - 1]
  }

  /** The tree shows exactly the given paths, with their bytes and flags. */
  ghost predicate Reproduces(fold: string -> string, entries: Entries, items: seq<Item>) {
    Shape(entries, Folds(fold, items), items) && AllNamed(fold, entries, items)
  }

  ghost predicate AllNamed(fold: string -> string, entries: Entries, items: seq<Item>) {
    forall i | 0 <= i < |items| :: NamedAs(entries, Fold(fold, items[i].path), items[i].path)
  }

  /** Legal paths are apart. */
  lemma LegalIsApart(fold: string -> string, items: seq<Item>)
    requires Legal(fold, Paths(items))
    ensures Apart(Folds(fold, items))
  {
    var paths, folds := Paths(items), Folds(fold, items);
    forall i, j | 0 <= i < j < |items| ensures FoldedApart(folds[i], folds[j]) {
      assert !Above(fold, paths[i], paths[j]) && !Above(fold, paths[j], paths[i]);
      PrefixIsTake(folds[i], folds[j]);
      PrefixIsTake(folds[j], folds[i]);
    }
  }

  lemma PrefixIsTake(f: Path, g: Path)
    ensures f <= g <==> |f| <= |g| && f == g[..|f|]
  {}

  /** A name given to a prefix of one path serves every path that shares the prefix. */
  lemma SharedName(fold: string -> string, p: Path, q: Path, f: Path)
    requires SpelledAlike(fold, p, q) && f != [] && f <= Fold(fold, p) && f <= Fold(fold, q)
    ensures p[|f| - 1] == q[|f| - 1]
  {
    FoldPrefix(fold, p, |f|);
    FoldPrefix(fold, q, |f|);
    PrefixIsTake(f, Fold(fold, p));
    PrefixIsTake(f, Fold(fold, q));
    assert p[..|f|][|f| - 1] == q[..|f|][|f| - 1];
  }

  lemma NewName(fold: string -> string, entries: Entries, item: Item, f: Path)
    requires item.path != [] && Accepts(entries, Fold(fold, item.path)) && f != [] && f in Put(fold, entries, item)
    ensures f in entries ==> Put(fold, entries, item)[f] == entries[f]
    ensures f !in entries ==> f <= Fold(fold, item.path) && Put(fold, entries, item)[f].name == item.path[|f| - 1]
  {
    ParentsBelow(entries, item.path, Fold(fold, item.path), |item.path|);
  }

  lemma OwnNames(fold: string -> string, entries: Entries, folds: seq<Path>, items: seq<Item>, item: Item)
    requires folds == Folds(fold, items) && Shape(entries, folds, items) && item.path != []
    requires Accepts(entries, Fold(fold, item.path))
    requires forall i | 0 <= i < |items| :: SpelledAlike(fold, items[i].path, item.path)
    requires forall i | 0 <= i < |items| :: NamedAs(entries, folds[i], items[i].path)
    ensures NamedAs(Put(fold, entries, item), Fold(fold, item.path), item.path)
  {
    var more, folded := Put(fold, entries, item), Fold(fold, item.path);
    forall f | f <= folded && f != [] && f in more ensures more[f].name == item.path[|f| - 1] {
      NewName(fold, entries, item, f);
      if f in entries {
        var i :| 0 <= i < |folds| && f <= folds[i];
        assert NamedAs(entries, folds[i], items[i].path);
        SharedName(fold, items[i].path, item.path, f);
      }
    }
  }

  lemma OldNames(fold: string -> string, entries: Entries, earlier: Item, item: Item)
    requires SpelledAlike(fold, earlier.path, item.path) && item.path != [] && Accepts(entries, Fold(fold, item.path))
    requires NamedAs(entries, Fold(fold, earlier.path), earlier.path)
    ensures NamedAs(Put(fold, entries, item), Fold(fold, earlier.path), earlier.path)
  {
    var more, before := Put(fold, entries, item), Fold(fold, earlier.path);
    forall f | f <= before && f != [] && f in more ensures more[f].name == earlier.path[|f| - 1] {
      NewName(fold, entries, item, f);
      if f !in entries { SharedName(fold, earlier.path, item.path, f); }
    }
  }

  /** A legal list of files is written without a collision, and every path, byte and flag comes back. */
  lemma LegalIsReproduced(fold: string -> string, items: seq<Item>)
    requires Rooted(items) && Legal(fold, Paths(items))
    ensures PutAll(fold, items).Some? && Reproduces(fold, PutAll(fold, items).value, items)
  {
    LegalIsApart(fold, items);
    PutAllExact(fold, items);
    LegalNames(fold, items);
  }

  lemma {:induction false} LegalNames(fold: string -> string, items: seq<Item>)
    requires Rooted(items) && Legal(fold, Paths(items)) && PutAll(fold, items).Some?
    ensures AllNamed(fold, PutAll(fold, items).value, items)
  {
    if items != [] {
      var head, last := items[..|items| - 1], items[|items| - 1];
      LegalHead(fold, items);
      LegalNames(fold, head);
      PutAllExact(fold, head);
      AlikeToLast(fold, items);
      NamesKept(fold, PutAll(fold, head).value, head, last);
      assert items == head + [last];
    }
  }

  /** Writing one more file leaves every path as it was spelled. */
  lemma NamesKept(fold: string -> string, entries: Entries, head: seq<Item>, last: Item)
    requires Reproduces(fold, entries, head) && last.path != [] && Accepts(entries, Fold(fold, last.path))
    requires forall i | 0 <= i < |head| :: SpelledAlike(fold, head[i].path, last.path)
    ensures AllNamed(fold, Put(fold, entries, last), head + [last])
  {
    forall i | 0 <= i < |head|
      ensures NamedAs(entries, Folds(fold, head)[i], head[i].path)
      ensures NamedAs(Put(fold, entries, last), Fold(fold, head[i].path), head[i].path)
    {
      assert NamedAs(entries, Fold(fold, head[i].path), head[i].path);
      OldNames(fold, entries, head[i], last);
    }
    OwnNames(fold, entries, Folds(fold, head), head, last);
  }

  lemma AlikeToLast(fold: string -> string, items: seq<Item>)
    requires items != [] && Legal(fold, Paths(items))
    ensures forall i | 0 <= i < |items| - 1 :: SpelledAlike(fold, items[i].path, items[|items| - 1].path)
  {
    forall i | 0 <= i < |items| - 1 ensures SpelledAlike(fold, items[i].path, items[|items| - 1].path) {
      assert SpelledAlike(fold, Paths(items)[i], Paths(items)[|items| - 1]);
    }
  }

  lemma LegalHead(fold: string -> string, items: seq<Item>)
    requires items != [] && Legal(fold, Paths(items))
    ensures Legal(fold, Paths(items[..|items| - 1]))
  {
    var all, head := Paths(items), Paths(items[..|items| - 1]);
    assert head == all[..|items| - 1];
    forall i, j | 0 <= i < j < |head| ensures SpelledAlike(fold, head[i], head[j]) && Fold(fold, head[i]) != Fold(fold, head[j]) {
      assert SpelledAlike(fold, all[i], all[j]);
    }
    forall i, j | 0 <= i < |head| && 0 <= j < |head| ensures !Above(fold, head[i], head[j]) {
      assert !Above(fold, all[i], all[j]);
    }
  }

  /** Only legal lists come back: a list that is not legal either collides or loses a spelling. */
  lemma ReproducedIsLegal(fold: string -> string, items: seq<Item>)
    requires Rooted(items) && PutAll(fold, items).Some? && Reproduces(fold, PutAll(fold, items).value, items)
    ensures Legal(fold, Paths(items))
  {
    PutAllExact(fold, items);
    var entries, paths, folds := PutAll(fold, items).value, Paths(items), Folds(fold, items);
    forall i, j | 0 <= i < j < |paths|
      ensures SpelledAlike(fold, paths[i], paths[j]) && Fold(fold, paths[i]) != Fold(fold, paths[j])
    {
      assert FoldedApart(folds[i], folds[j]);
      PrefixOrSame(folds[i], folds[j]);
      forall k | 0 <= k <= |paths[i]| && k <= |paths[j]| && Fold(fold, paths[i][..k]) == Fold(fold, paths[j][..k])
        ensures paths[i][..k] == paths[j][..k]
      {
        SameSpelling(fold, entries, items[i], items[j], k);
      }
    }
    forall i, j | 0 <= i < |paths| && 0 <= j < |paths| ensures !Above(fold, paths[i], paths[j]) {
      if i < j { assert FoldedApart(folds[i], folds[j]); }
      if j < i { assert FoldedApart(folds[j], folds[i]); }
      PrefixIsTake(folds[i], folds[j]);
    }
  }

  /** The entry at depth j bears one name, which both paths repeat. */
  lemma SameComponent(fold: string -> string, entries: Entries, a: Item, b: Item, j: nat)
    requires ItemIn(entries, Fold(fold, a.path), a)
    requires NamedAs(entries, Fold(fold, a.path), a.path) && NamedAs(entries, Fold(fold, b.path), b.path)
    requires j < |a.path| && j < |b.path| && Fold(fold, a.path)[..j + 1] == Fold(fold, b.path)[..j + 1]
    ensures a.path[j] == b.path[j]
  {
    var f := Fold(fold, a.path)[..j + 1];
    PrefixIsTake(f, Fold(fold, a.path));
    PrefixIsTake(f, Fold(fold, b.path));
    PrefixOrSame(f, Fold(fold, a.path));
  }

  lemma ShorterPrefix(f: Path, g: Path, j: nat, k: nat)
    requires j <= k <= |f| && k <= |g| && f[..k] == g[..k]
    ensures f[..j] == g[..j]
  {
    assert f[..k][..j] == f[..j] && g[..k][..j] == g[..j];
  }

  lemma SameSpelling(fold: string -> string, entries: Entries, a: Item, b: Item, k: nat)
    requires ItemIn(entries, Fold(fold, a.path), a)
    requires NamedAs(entries, Fold(fold, a.path), a.path) && NamedAs(entries, Fold(fold, b.path), b.path)
    requires k <= |a.path| && k <= |b.path| && Fold(fold, a.path[..k]) == Fold(fold, b.path[..k])
    ensures a.path[..k] == b.path[..k]
  {
    FoldPrefix(fold, a.path, k);
    FoldPrefix(fold, b.path, k);
    forall j | 0 <= j < k ensures a.path[j] == b.path[j] {
      ShorterPrefix(Fold(fold, a.path), Fold(fold, b.path), j + 1, k);
      SameComponent(fold, entries, a, b, j);
    }
  }
}
