/** What a build's log says: the messages of its committed transactions, in the order of their commits. */
module LogHistories {
  import opened Common
  import opened ExecutionLogs

  // ---- Read off the steps alone ----

  /** The build of an open transaction. */
  function BuildOf(steps: seq<Step>, t: TxnId): Option<BuildId> {
    if steps == [] then None
    else
      match steps[|steps| - 1]
      case Begin(u, b) => if u == t then Some(b) else BuildOf(steps[..|steps| - 1], t)
      case Commit(u) => if u == t then None else BuildOf(steps[..|steps| - 1], t)
      case Rollback(u) => if u == t then None else BuildOf(steps[..|steps| - 1], t)
      case _ => BuildOf(steps[..|steps| - 1], t)
  }

  /** What a transaction has inserted since it began. */
  function Inserted(steps: seq<Step>, t: TxnId): seq<string> {
    if steps == [] then []
    else
      match steps[|steps| - 1]
      case Begin(u, _) => if u == t then [] else Inserted(steps[..|steps| - 1], t)
      case Insert(u, message) => Inserted(steps[..|steps| - 1], t) + if u == t then [message] else []
      case _ => Inserted(steps[..|steps| - 1], t)
  }

  /** The messages of the committed transactions of a build, commit after commit. */
  function History(steps: seq<Step>, b: BuildId): seq<string> {
    if steps == [] then []
    else
      var before := steps[..|steps| - 1];
      match steps[|steps| - 1]
      case Commit(t) => History(before, b) + if BuildOf(before, t) == Some(b) then Inserted(before, t) else []
      case _ => History(before, b)
  }

  function Texts(rows: seq<(LogId, Log)>): (texts: seq<string>)
    ensures |texts| == |rows|
  {
    seq(|rows|, i requires 0 <= i < |rows| => rows[i].1.message)
  }

  lemma TextsJoin(a: seq<(LogId, Log)>, b: seq<(LogId, Log)>)
    ensures Texts(a + b) == Texts(a) + Texts(b)
  {}

  // ---- The tables agree with it ----

  /** The transaction is open for the build the steps say, with the messages they say. */
  predicate TxnAgrees(s: System, steps: seq<Step>, t: TxnId) {
    && (t in s.open_ <==> BuildOf(steps, t).Some?)
    && (t in s.open_ ==>
          && BuildOf(steps, t) == Some(s.open_[t].build)
          && Texts(Rows(s.open_[t].inserted, s.open_[t].build, 1, s.next)) == Inserted(steps, t))
  }

  predicate LogAgrees(s: System, steps: seq<Step>, b: BuildId) {
    Texts(Rows(s.committed, b, 1, s.next)) == History(steps, b)
  }

  ghost predicate Agrees(s: System, steps: seq<Step>) {
    (forall t :: TxnAgrees(s, steps, t)) && (forall b :: LogAgrees(s, steps, b))
  }

  lemma {:induction false} NoRows(rows: map<LogId, Log>, b: BuildId, from: LogId, end: LogId)
    requires forall c | from <= c < end && c in rows :: rows[c].build != b
    ensures Rows(rows, b, from, end) == []
    decreases end
  {
    if from < end { NoRows(rows, b, from, end - 1); }
  }

  /** Rows that are all younger come after. */
  lemma {:induction false} RowsMerge(old_: map<LogId, Log>, new_: map<LogId, Log>, b: BuildId, end: LogId)
    requires forall c, d | c in old_ && old_[c].build == b && d in new_ && new_[d].build == b :: c < d
    requires forall d | d in new_ :: d !in old_
    ensures Rows(old_ + new_, b, 1, end) == Rows(old_, b, 1, end) + Rows(new_, b, 1, end)
    decreases end
  {
    if 1 < end {
      RowsMerge(old_, new_, b, end - 1);
      if end - 1 in old_ && old_[end - 1].build == b { NoRows(new_, b, 1, end - 1); }
    }
  }

  lemma InsertAgrees(s: System, steps: seq<Step>, t: TxnId, message: string, lockOf: BuildId -> LockKey)
    requires Inv(s, lockOf) && Enabled(s, Insert(t, message), lockOf) && Agrees(s, steps)
    ensures Agrees(Apply(s, Insert(t, message)), steps + [Insert(t, message)])
  {
    var s', steps' := Apply(s, Insert(t, message)), steps + [Insert(t, message)];
    assert steps'[..|steps|] == steps;
    forall u ensures TxnAgrees(s', steps', u) {
      assert TxnAgrees(s, steps, u);
      if u in s.open_ { InsertTxn(s, t, message, u); }
    }
    forall b ensures LogAgrees(s', steps', b) { assert LogAgrees(s, steps, b); }
  }

  lemma InsertTxn(s: System, t: TxnId, message: string, u: TxnId)
    requires t in s.open_ && u in s.open_ && TxnOk(s, t) && TxnOk(s, u) && s.next > 0
    ensures var s' := Apply(s, Insert(t, message));
      && u in s'.open_ && s'.open_[u].build == s.open_[u].build
      && Texts(Rows(s'.open_[u].inserted, s.open_[u].build, 1, s'.next))
           == Texts(Rows(s.open_[u].inserted, s.open_[u].build, 1, s.next)) + if u == t then [message] else []
  {
    var s' := Apply(s, Insert(t, message));
    SameRows(s.open_[u].inserted, s'.open_[u].inserted, s.open_[u].build, 1, s.next);
    if u == t {
      TextsJoin(Rows(s.open_[u].inserted, s.open_[u].build, 1, s.next), [(s.next, Log(s.open_[u].build, message))]);
    }
  }

  lemma CommitAgrees(s: System, steps: seq<Step>, t: TxnId, lockOf: BuildId -> LockKey)
    requires Inv(s, lockOf) && Enabled(s, Commit(t), lockOf) && Agrees(s, steps)
    ensures Agrees(Apply(s, Commit(t)), steps + [Commit(t)])
  {
    var s', steps' := Apply(s, Commit(t)), steps + [Commit(t)];
    assert steps'[..|steps|] == steps;
    forall u ensures TxnAgrees(s', steps', u) { assert TxnAgrees(s, steps, u); }
    assert TxnOk(s, t) && TxnAgrees(s, steps, t);
    forall b ensures LogAgrees(s', steps', b) {
      assert LogAgrees(s, steps, b);
      var rows := s.open_[t].inserted;
      RowsMerge(s.committed, rows, b, s.next);
      if b != s.open_[t].build { NoRows(rows, b, 1, s.next); }
      TextsJoin(Rows(s.committed, b, 1, s.next), Rows(rows, b, 1, s.next));
    }
  }

  lemma BeginAgrees(s: System, steps: seq<Step>, t: TxnId, b: BuildId, lockOf: BuildId -> LockKey)
    requires Inv(s, lockOf) && Enabled(s, Begin(t, b), lockOf) && Agrees(s, steps)
    ensures Agrees(Apply(s, Begin(t, b)), steps + [Begin(t, b)])
  {
    var s', steps' := Apply(s, Begin(t, b)), steps + [Begin(t, b)];
    assert steps'[..|steps|] == steps;
    NoRows(map[], b, 1, s.next);
    forall u ensures TxnAgrees(s', steps', u) { assert TxnAgrees(s, steps, u); }
    forall c ensures LogAgrees(s', steps', c) { assert LogAgrees(s, steps, c); }
  }

  lemma OtherAgrees(s: System, steps: seq<Step>, step: Step, lockOf: BuildId -> LockKey)
    requires Enabled(s, step, lockOf) && Agrees(s, steps) && (step.Rollback? || step.Open? || step.Read?)
    ensures Agrees(Apply(s, step), steps + [step])
  {
    var s', steps' := Apply(s, step), steps + [step];
    assert steps'[..|steps|] == steps;
    forall u ensures TxnAgrees(s', steps', u) { assert TxnAgrees(s, steps, u); }
    forall c ensures LogAgrees(s', steps', c) { assert LogAgrees(s, steps, c); }
  }

  lemma {:induction false} RunAgrees(states: seq<System>, steps: seq<Step>, lockOf: BuildId -> LockKey, i: nat)
    requires IsRun(states, steps, lockOf) && i < |states|
    ensures Agrees(states[i], steps[..i])
  {
    if i == 0 {
      forall b ensures LogAgrees(states[0], [], b) { NoRows(map[], b, 1, 1); }
      assert steps[..0] == [];
    } else {
      RunAgrees(states, steps, lockOf, i - 1);
      RunInv(states, steps, lockOf, i - 1);
      assert Next(states, steps, lockOf, i - 1);
      assert steps[..i] == steps[..i - 1] + [steps[i - 1]];
      match steps[i - 1] {
        case Begin(t, b) => BeginAgrees(states[i - 1], steps[..i - 1], t, b, lockOf);
        case Insert(t, message) => InsertAgrees(states[i - 1], steps[..i - 1], t, message, lockOf);
        case Commit(t) => CommitAgrees(states[i - 1], steps[..i - 1], t, lockOf);
        case _ => OtherAgrees(states[i - 1], steps[..i - 1], steps[i - 1], lockOf);
      }
    }
  }

  /** At every moment of every run the rows of a build, by id, are the messages of its committed transactions, whole and
      in the order of their commits, however transactions of other builds were mixed in. */
  lemma LogIsHistory(states: seq<System>, steps: seq<Step>, lockOf: BuildId -> LockKey, i: nat, b: BuildId)
    requires IsRun(states, steps, lockOf) && i < |states|
    ensures Texts(Rows(states[i].committed, b, 1, states[i].next)) == History(steps[..i], b)
  {
    RunAgrees(states, steps, lockOf, i);
    assert LogAgrees(states[i], steps[..i], b);
  }

  /** A reader has always been given a beginning of that history, and the whole of it when its page announces no more. */
  lemma SeenIsHistory(states: seq<System>, steps: seq<Step>, lockOf: BuildId -> LockKey, i: nat, r: ReaderId)
    requires IsRun(states, steps, lockOf) && i < |states| && r in states[i].readers
    ensures var reader := states[i].readers[r];
      && Texts(reader.seen) <= History(steps[..i], reader.build)
      && (i > 0 && steps[i - 1].Read? && steps[i - 1].r == r && !reader.more ==>
            Texts(reader.seen) == History(steps[..i], reader.build))
  {
    var s, reader := states[i], states[i].readers[r];
    LogIsHistory(states, steps, lockOf, i, reader.build);
    CursorExact(states, steps, lockOf, i, r);
    RunInv(states, steps, lockOf, i);
    assert ReaderOk(s, r);
    RowsJoin(s.committed, reader.build, 1, reader.cursor + 1, s.next);
    TextsJoin(reader.seen, Rows(s.committed, reader.build, reader.cursor + 1, s.next));
    if i > 0 && steps[i - 1].Read? && steps[i - 1].r == r {
      NoMoreMeansAll(states, steps, lockOf, i - 1, r, steps[i - 1].limit);
    }
  }
}
