/** Execution logs: concurrent append transactions, and readers that follow cursors. */
module ExecutionLogs {
  import opened Common

  type BuildId = nat
  type LockKey = nat
  type TxnId = nat
  type ReaderId = nat
  type LogId = nat

  datatype Log = Log(build: BuildId, message: string)

  /** An open transaction: the build whose log it extends, and the rows inserted so far, not yet visible. */
  datatype Txn = Txn(build: BuildId, inserted: map<LogId, Log>)

  /** A client of one build's log: where it stands, everything it has been given, and whether its last page announced
      more. */
  datatype Reader = Reader(build: BuildId, cursor: LogId, seen: seq<(LogId, Log)>, more: bool)

  /** `next` is the sequence shared by all builds; it never goes back, whatever commits. */
  datatype System = System(next: LogId, committed: map<LogId, Log>, open_: map<TxnId, Txn>, readers: map<ReaderId, Reader>)

  datatype Step =
    | Begin(t: TxnId, b: BuildId)       // takes the lock of the build's log namespace
    | Insert(t: TxnId, message: string) // draws an id
    | Commit(t: TxnId)
    | Rollback(t: TxnId)
    | Open(r: ReaderId, b: BuildId)
    | Read(r: ReaderId, limit: nat)

  const INITIAL: System := System(1, map[], map[], map[])

  // ---- Pages ----

  /** The committed rows of a build with from <= id < end, in order. */
  function Rows(committed: map<LogId, Log>, b: BuildId, from: LogId, end: LogId): seq<(LogId, Log)>
    decreases end
  {
    if from >= end then []
    else
      Rows(committed, b, from, end - 1)
      + if end - 1 in committed && committed[end - 1].build == b then [(end - 1, committed[end - 1])] else []
  }

  datatype Page = Page(rows: seq<(LogId, Log)>, cursor: LogId, hasMore: bool)

  function List(s: System, b: BuildId, after: LogId, limit: nat): Page {
    var entities := Rows(s.committed, b, after + 1, s.next);
    var found := if |entities| > limit + 1 then entities[..limit + 1] else entities;
    var rows := if |found| > limit then found[..limit] else found;
    Page(rows, if rows != [] then rows[|rows| - 1].0 else after, |found| > limit)
  }

  // ---- Steps ----

  /** Two builds may share a lock: the namespace is a hash of the build's name. */
  predicate Free(s: System, lockOf: BuildId -> LockKey, b: BuildId) {
    forall t | t in s.open_ :: lockOf(s.open_[t].build) != lockOf(b)
  }

  predicate Enabled(s: System, step: Step, lockOf: BuildId -> LockKey) {
    match step
    case Begin(t, b) => t !in s.open_ && Free(s, lockOf, b)
    case Insert(t, _) => t in s.open_
    case Commit(t) => t in s.open_
    case Rollback(t) => t in s.open_
    case Open(r, _) => r !in s.readers
    case Read(r, limit) => r in s.readers && limit > 0
  }

  function Apply(s: System, step: Step): System {
    match step
    case Begin(t, b) => s.(open_ := s.open_[t := Txn(b, map[])])
    case Insert(t, message) =>
      if t !in s.open_ then s
      else
        var txn := s.open_[t];
        s.(next := s.next + 1, open_ := s.open_[t := txn.(inserted := txn.inserted[s.next := Log(txn.build, message)])])
    case Commit(t) => if t !in s.open_ then s else s.(committed := s.committed + s.open_[t].inserted, open_ := s.open_ - {t})
    case Rollback(t) => s.(open_ := s.open_ - {t})
    case Open(r, b) => s.(readers := s.readers[r := Reader(b, 0, [], false)])
    case Read(r, limit) =>
      if r !in s.readers then s
      else
        var reader := s.readers[r];
        var page := List(s, reader.build, reader.cursor, limit);
        s.(readers := s.readers[r := reader.(cursor := page.cursor, seen := reader.seen + page.rows, more := page.hasMore)])
  }

  // ---- Invariant ----

  /** The rows of an open transaction are its build's, fresh, and younger than everything committed for the build. */
  predicate TxnOk(s: System, t: TxnId)
    requires t in s.open_
  {
    var txn := s.open_[t];
    && (forall id | id in txn.inserted :: 0 < id < s.next && id !in s.committed && txn.inserted[id].build == txn.build)
    && (forall id, c | id in txn.inserted && c in s.committed && s.committed[c].build == txn.build :: c < id)
  }

  /** A reader has seen exactly the committed rows of its build up to its cursor, in order. */
  predicate ReaderOk(s: System, r: ReaderId)
    requires r in s.readers
  {
    var reader := s.readers[r];
    && reader.seen == Rows(s.committed, reader.build, 1, reader.cursor + 1)
    && (reader.cursor == 0 || (reader.cursor in s.committed && s.committed[reader.cursor].build == reader.build))
  }

  predicate Exclusive(s: System, lockOf: BuildId -> LockKey) {
    forall t, u | t in s.open_ && u in s.open_ && t != u :: lockOf(s.open_[t].build) != lockOf(s.open_[u].build)
  }

  predicate Disjoint(s: System) {
    forall t, u, id | t in s.open_ && u in s.open_ && t != u && id in s.open_[t].inserted :: id !in s.open_[u].inserted
  }

  predicate Inv(s: System, lockOf: BuildId -> LockKey) {
    && s.next > 0 && Exclusive(s, lockOf) && Disjoint(s)
    && (forall c | c in s.committed :: 0 < c < s.next)
    && (forall t | t in s.open_ :: TxnOk(s, t))
    && (forall r | r in s.readers :: ReaderOk(s, r))
  }

  lemma {:induction false} SameRows(committed: map<LogId, Log>, committed': map<LogId, Log>, b: BuildId, from: LogId, end: LogId)
    requires forall c | from <= c < end ::
      (c in committed && committed[c].build == b) <==> (c in committed' && committed'[c].build == b)
    requires forall c | from <= c < end && c in committed && c in committed' && committed[c].build == b ::
      committed[c] == committed'[c]
    ensures Rows(committed, b, from, end) == Rows(committed', b, from, end)
    decreases end
  {
    if from < end { SameRows(committed, committed', b, from, end - 1); }
  }

  lemma {:induction false} RowsJoin(committed: map<LogId, Log>, b: BuildId, from: LogId, mid: LogId, end: LogId)
    requires from <= mid <= end
    ensures Rows(committed, b, from, end) == Rows(committed, b, from, mid) + Rows(committed, b, mid, end)
    decreases end
  {
    if mid < end { RowsJoin(committed, b, from, mid, end - 1); }
  }

  /** A page is all rows up to its last id. */
  lemma {:induction false} PageIsPrefix(committed: map<LogId, Log>, b: BuildId, from: LogId, end: LogId, n: nat)
    requires 0 < n <= |Rows(committed, b, from, end)|
    ensures var last := Rows(committed, b, from, end)[n - 1].0;
      && from <= last < end && last in committed && committed[last].build == b
      && Rows(committed, b, from, end)[..n] == Rows(committed, b, from, last + 1)
    decreases end
  {
    var rows, head := Rows(committed, b, from, end), Rows(committed, b, from, end - 1);
    if n <= |head| {
      PageIsPrefix(committed, b, from, end - 1, n);
      assert rows[..n] == head[..n];
    } else {
      assert rows[..n] == rows;
    }
  }

  // ---- Each step keeps it ----

  lemma BeginKeeps(s: System, t: TxnId, b: BuildId, lockOf: BuildId -> LockKey)
    requires Inv(s, lockOf) && Enabled(s, Begin(t, b), lockOf)
    ensures Inv(Apply(s, Begin(t, b)), lockOf)
  {
    var s' := Apply(s, Begin(t, b));
    forall u | u in s'.open_ ensures TxnOk(s', u) { if u != t { assert TxnOk(s, u); } }
    forall r | r in s'.readers ensures ReaderOk(s', r) { assert ReaderOk(s, r); }
  }

  lemma InsertKeeps(s: System, t: TxnId, message: string, lockOf: BuildId -> LockKey)
    requires Inv(s, lockOf) && Enabled(s, Insert(t, message), lockOf)
    ensures Inv(Apply(s, Insert(t, message)), lockOf)
  {
    var s' := Apply(s, Insert(t, message));
    forall u | u in s'.open_ ensures TxnOk(s', u) { assert TxnOk(s, u); }
    forall r | r in s'.readers ensures ReaderOk(s', r) { assert ReaderOk(s, r); }
  }

  /** New rows of a build lie beyond every cursor on it, so no reader misses them. */
  lemma CommitReader(s: System, t: TxnId, r: ReaderId)
    requires t in s.open_ && TxnOk(s, t) && r in s.readers && ReaderOk(s, r)
    ensures ReaderOk(Apply(s, Commit(t)), r)
  {
    var s', reader, txn := Apply(s, Commit(t)), s.readers[r], s.open_[t];
    forall c | 1 <= c < reader.cursor + 1 && c in txn.inserted ensures txn.inserted[c].build != reader.build {
      assert reader.cursor in s.committed && s.committed[reader.cursor].build == reader.build;
    }
    SameRows(s.committed, s'.committed, reader.build, 1, reader.cursor + 1);
  }

  lemma CommitKeeps(s: System, t: TxnId, lockOf: BuildId -> LockKey)
    requires Inv(s, lockOf) && Enabled(s, Commit(t), lockOf)
    ensures Inv(Apply(s, Commit(t)), lockOf)
  {
    var s' := Apply(s, Commit(t));
    assert TxnOk(s, t);
    forall u | u in s'.open_ ensures TxnOk(s', u) {
      assert TxnOk(s, u) && lockOf(s.open_[u].build) != lockOf(s.open_[t].build);
    }
    forall r | r in s'.readers ensures ReaderOk(s', r) { CommitReader(s, t, r); }
  }

  /** A page continues exactly where the cursor stood. */
  lemma PageContinues(s: System, b: BuildId, after: LogId, limit: nat)
    requires (forall c | c in s.committed :: 0 < c < s.next) && limit > 0
    ensures var page := List(s, b, after, limit);
      && Rows(s.committed, b, 1, after + 1) + page.rows == Rows(s.committed, b, 1, page.cursor + 1)
      && (page.cursor == after || (page.cursor in s.committed && s.committed[page.cursor].build == b))
  {
    var entities, page := Rows(s.committed, b, after + 1, s.next), List(s, b, after, limit);
    if entities != [] {
      var n := if |entities| > limit then limit else |entities|;
      assert page.rows == entities[..n];
      PageIsPrefix(s.committed, b, after + 1, s.next, n);
      RowsJoin(s.committed, b, 1, after + 1, page.cursor + 1);
    } else {
      assert Rows(s.committed, b, 1, after + 1) + [] == Rows(s.committed, b, 1, after + 1);
    }
  }

  lemma ReadKeeps(s: System, r: ReaderId, limit: nat)
    requires (forall c | c in s.committed :: 0 < c < s.next) && r in s.readers && ReaderOk(s, r) && limit > 0
    ensures ReaderOk(Apply(s, Read(r, limit)), r)
  {
    PageContinues(s, s.readers[r].build, s.readers[r].cursor, limit);
  }

  lemma StepKeeps(s: System, step: Step, lockOf: BuildId -> LockKey)
    requires Inv(s, lockOf) && Enabled(s, step, lockOf)
    ensures Inv(Apply(s, step), lockOf)
  {
    var s' := Apply(s, step);
    match step {
      case Begin(t, b) => BeginKeeps(s, t, b, lockOf);
      case Insert(t, message) => InsertKeeps(s, t, message, lockOf);
      case Commit(t) => CommitKeeps(s, t, lockOf);
      case Rollback(t) =>
        forall u | u in s'.open_ ensures TxnOk(s', u) { assert TxnOk(s, u); }
        forall r | r in s'.readers ensures ReaderOk(s', r) { assert ReaderOk(s, r); }
      case Open(r, b) =>
        forall u | u in s'.open_ ensures TxnOk(s', u) { assert TxnOk(s, u); }
        forall q | q in s'.readers ensures ReaderOk(s', q) { if q != r { assert ReaderOk(s, q); } }
      case Read(r, limit) =>
        forall u | u in s'.open_ ensures TxnOk(s', u) { assert TxnOk(s, u); }
        ReadKeeps(s, r, limit);
        forall q | q in s'.readers ensures ReaderOk(s', q) { if q != r { assert ReaderOk(s, q); } }
    }
  }

  // ---- Whole runs ----

  predicate Next(states: seq<System>, steps: seq<Step>, lockOf: BuildId -> LockKey, i: nat)
    requires |states| == |steps| + 1 && i < |steps|
  {
    Enabled(states[i], steps[i], lockOf) && states[i + 1] == Apply(states[i], steps[i])
  }

  ghost predicate IsRun(states: seq<System>, steps: seq<Step>, lockOf: BuildId -> LockKey) {
    && |states| == |steps| + 1 && states[0] == INITIAL
    && forall i | 0 <= i < |steps| :: Next(states, steps, lockOf, i)
  }

  lemma {:induction false} RunInv(states: seq<System>, steps: seq<Step>, lockOf: BuildId -> LockKey, i: nat)
    requires IsRun(states, steps, lockOf) && i < |states|
    ensures Inv(states[i], lockOf)
  {
    if i > 0 {
      RunInv(states, steps, lockOf, i - 1);
      assert Next(states, steps, lockOf, i - 1);
      StepKeeps(states[i - 1], steps[i - 1], lockOf);
    }
  }

  /** At every moment of every run a reader has been given exactly the committed rows of its build up to its cursor,
      each once and in order, although transactions of other builds draw from the same sequence and commit late. */
  lemma CursorExact(states: seq<System>, steps: seq<Step>, lockOf: BuildId -> LockKey, i: nat, r: ReaderId)
    requires IsRun(states, steps, lockOf) && i < |states| && r in states[i].readers
    ensures var reader := states[i].readers[r]; reader.seen == Rows(states[i].committed, reader.build, 1, reader.cursor + 1)
  {
    RunInv(states, steps, lockOf, i);
    assert ReaderOk(states[i], r);
  }

  predicate Extends(s: System, s': System) {
    && (forall c | c in s.committed :: c in s'.committed && s'.committed[c] == s.committed[c])
    && (forall r | r in s.readers :: r in s'.readers && s'.readers[r].build == s.readers[r].build
          && s.readers[r].seen <= s'.readers[r].seen)
  }

  lemma StepExtends(s: System, step: Step, lockOf: BuildId -> LockKey)
    requires Inv(s, lockOf) && Enabled(s, step, lockOf)
    ensures Extends(s, Apply(s, step))
  {
    if step.Commit? { assert TxnOk(s, step.t); }
  }

  lemma ExtendsTwice(a: System, b: System, c: System)
    requires Extends(a, b) && Extends(b, c)
    ensures Extends(a, c)
  {
    forall r | r in a.readers ensures a.readers[r].seen <= c.readers[r].seen {
      assert a.readers[r].seen <= b.readers[r].seen <= c.readers[r].seen;
    }
  }

  lemma NextExtends(states: seq<System>, steps: seq<Step>, lockOf: BuildId -> LockKey, i: nat)
    requires IsRun(states, steps, lockOf) && i < |steps|
    ensures Extends(states[i], states[i + 1])
  {
    RunInv(states, steps, lockOf, i);
    assert Next(states, steps, lockOf, i);
    StepExtends(states[i], steps[i], lockOf);
  }

  /** Committed rows never change or vanish, and what a reader was given it keeps. */
  lemma {:induction false} NothingRewritten(states: seq<System>, steps: seq<Step>, lockOf: BuildId -> LockKey, i: nat, k: nat)
    requires IsRun(states, steps, lockOf) && i <= k < |states|
    ensures Extends(states[i], states[k])
    decreases k
  {
    if i < k {
      NothingRewritten(states, steps, lockOf, i, k - 1);
      NextExtends(states, steps, lockOf, k - 1);
      ExtendsTwice(states[i], states[k - 1], states[k]);
    }
  }

  // ---- How much a page holds ----

  /** The committed rows of a build from an id on. */
  function Beyond(committed: map<LogId, Log>, b: BuildId, from: LogId): set<LogId> {
    set c | c in committed && committed[c].build == b && c >= from
  }

  lemma {:induction false} RowsCounted(committed: map<LogId, Log>, b: BuildId, from: LogId, end: LogId)
    ensures |Rows(committed, b, from, end)| == |set c | c in committed && committed[c].build == b && from <= c < end|
    decreases end
  {
    var here := set c | c in committed && committed[c].build == b && from <= c < end;
    if from >= end {
      assert here == {};
    } else {
      RowsCounted(committed, b, from, end - 1);
      var before := set c | c in committed && committed[c].build == b && from <= c < end - 1;
      assert here == if end - 1 in committed && committed[end - 1].build == b then before + {end - 1} else before;
    }
  }

  /** A page holds as many of the rows beyond the cursor as there are, up to the limit, and announces more exactly when
      there are more than that. */
  lemma PageExact(states: seq<System>, steps: seq<Step>, lockOf: BuildId -> LockKey, i: nat, r: ReaderId, limit: nat)
    requires IsRun(states, steps, lockOf) && i < |steps| && steps[i] == Read(r, limit)
    ensures r in states[i].readers && r in states[i + 1].readers
    ensures var reader, reader' := states[i].readers[r], states[i + 1].readers[r];
      var waiting := |Beyond(states[i].committed, reader.build, reader.cursor + 1)|;
      && states[i + 1] == states[i].(readers := states[i].readers[r := reader']) && reader'.build == reader.build
      && |reader'.seen| == |reader.seen| + (if waiting < limit then waiting else limit)
      && (reader'.more <==> waiting > limit)
  {
    assert Next(states, steps, lockOf, i);
    RunInv(states, steps, lockOf, i);
    var s, reader := states[i], states[i].readers[r];
    RowsCounted(s.committed, reader.build, reader.cursor + 1, s.next);
    assert Beyond(s.committed, reader.build, reader.cursor + 1)
        == set c | c in s.committed && s.committed[c].build == reader.build && reader.cursor + 1 <= c < s.next;
  }

  /** A reader that is told there is nothing more has everything committed for its build. */
  lemma NoMoreMeansAll(states: seq<System>, steps: seq<Step>, lockOf: BuildId -> LockKey, i: nat, r: ReaderId, limit: nat)
    requires IsRun(states, steps, lockOf) && i < |steps| && steps[i] == Read(r, limit)
    ensures r in states[i].readers && r in states[i + 1].readers
    ensures var s', reader' := states[i + 1], states[i + 1].readers[r];
      reader'.more <==> reader'.seen != Rows(s'.committed, reader'.build, 1, s'.next)
  {
    assert Next(states, steps, lockOf, i);
    RunInv(states, steps, lockOf, i);
    RunInv(states, steps, lockOf, i + 1);
    var s, reader := states[i], states[i].readers[r];
    assert ReaderOk(s, r) && ReaderOk(states[i + 1], r);
    var entities := Rows(s.committed, reader.build, reader.cursor + 1, s.next);
    RowsJoin(s.committed, reader.build, 1, reader.cursor + 1, s.next);
    assert |states[i + 1].readers[r].seen| == |reader.seen| + if |entities| > limit then limit else |entities|;
  }

  /** Were the lock not taken before an id is drawn, a late commit would slip behind a cursor for good. */
  lemma LockIsNeeded()
    ensures var s := Apply(Apply(Apply(Apply(INITIAL, Begin(1, 7)), Insert(1, "early")), Begin(2, 7)), Insert(2, "late"));
      var s' := Apply(Apply(Apply(Apply(s, Commit(2)), Open(0, 7)), Read(0, 10)), Commit(1));
      0 in s'.readers && !ReaderOk(s', 0)
  {
    var s1 := Apply(Apply(INITIAL, Begin(1, 7)), Insert(1, "early"));
    var s2 := Apply(Apply(s1, Begin(2, 7)), Insert(2, "late"));
    var s3 := Apply(Apply(s2, Commit(2)), Open(0, 7));
    assert s3.committed == map[2 := Log(7, "late")] && s3.next == 3;
    assert Rows(s3.committed, 7, 1, 1) == [] && Rows(s3.committed, 7, 1, 2) == [];
    assert Rows(s3.committed, 7, 1, 3) == [(2, Log(7, "late"))];
    var s4 := Apply(Apply(s3, Read(0, 10)), Commit(1));
    assert s4.readers[0] == Reader(7, 2, [(2, Log(7, "late"))], false);
    assert s4.committed[1] == Log(7, "early");
    assert |Rows(s4.committed, 7, 1, 2)| == 1 && |Rows(s4.committed, 7, 1, 3)| == 2;
  }
}
