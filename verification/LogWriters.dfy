/** The bounded log queue of one engine command, its drain thread, and failing writes. */
module LogWriters {
  import opened Common

  type Entry = string

  const QUEUE_SIZE := 2048
  const BATCH_SIZE := 100

  /** Where the drain thread stands. */
  datatype Pc = Getting | Deciding | Flushing | Dropping | Done

  /** `None` in the queue asks the thread to stop. The last four fields are history: what was accepted, what reached the
      database, what was accepted and lost, and how many emits found the queue full. */
  datatype State = State(
    queue: seq<Option<Entry>>, batch: seq<Entry>, dropped: nat, failed: bool, stopping: bool, closed: bool, pc: Pc,
    accepted: seq<Entry>, written: seq<Entry>, lost: seq<Entry>, refused: nat)

  const INITIAL: State := State([], [], 0, false, false, false, Getting, [], [], [], 0)

  datatype Step =
    | Emit(entry: Entry)
    | Close                       // puts the stop request, once there is room
    | Take                        // the thread gets an item
    | Timeout                     // nothing arrived before the deadline
    | Decide(early: bool)         // whether the deadline is still ahead
    | Flush(succeeds: bool)       // writes the batch, if there is one to write
    | Drop                        // counts a batch that cannot be written any more

  /** Engines close their writer after their last emit. */
  predicate Enabled(s: State, step: Step) {
    match step
    case Emit(_) => !s.closed
    case Close => !s.closed && |s.queue| < QUEUE_SIZE
    case Take => s.pc == Getting && s.queue != []
    case Timeout => s.pc == Getting && s.queue == []
    case Decide(_) => s.pc == Deciding
    case Flush(_) => s.pc == Flushing
    case Drop => s.pc == Dropping
  }

  function AfterFlush(s: State): State {
    s.(batch := [], pc := if s.stopping then Done else Getting)
  }

  function Apply(s: State, step: Step): State {
    match step
    case Emit(entry) =>
      if |s.queue| < QUEUE_SIZE then s.(queue := s.queue + [Some(entry)], accepted := s.accepted + [entry])
      else s.(dropped := s.dropped + 1, refused := s.refused + 1)
    case Close => s.(queue := s.queue + [None], closed := true)
    case Take =>
      if s.queue == [] then s
      else
        var item, rest := s.queue[0], s.(queue := s.queue[1..], pc := Deciding);
        if item.None? then rest.(stopping := true) else rest.(batch := s.batch + [item.value])
    case Timeout => s.(pc := Deciding)
    case Decide(early) => s.(pc := if |s.batch| < BATCH_SIZE && !s.stopping && early then Getting else Flushing)
    case Flush(succeeds) =>
      if s.batch == [] then AfterFlush(s)
      else if s.failed then s.(pc := Dropping)
      else if succeeds then AfterFlush(s.(written := s.written + s.batch))
      else s.(failed := true, pc := Dropping)
    case Drop => AfterFlush(s.(dropped := s.dropped + |s.batch|, lost := s.lost + s.batch))
  }

  // ---- The writer as it runs ----

  class LogWriter {
    var queue: seq<Option<Entry>>
    var batch: seq<Entry>
    var dropped: nat
    var failed: bool
    var stopping: bool
    ghost var closed: bool
    ghost var pc: Pc
    ghost var accepted: seq<Entry>
    ghost var written: seq<Entry>
    ghost var lost: seq<Entry>
    ghost var refused: nat

    ghost function Now(): State
      reads this
    {
      State(queue, batch, dropped, failed, stopping, closed, pc, accepted, written, lost, refused)
    }

    constructor ()
      ensures Now() == INITIAL
    {
      queue, batch, dropped, failed, stopping := [], [], 0, false, false;
      closed, pc, accepted, written, lost, refused := false, Getting, [], [], [], 0;
    }

    method EmitEntry(entry: Entry)
      requires Enabled(Now(), Emit(entry))
      modifies this
      ensures Now() == Apply(old(Now()), Emit(entry))
    {
      if |queue| < QUEUE_SIZE {
        queue := queue + [Some(entry)];
        accepted := accepted + [entry];
      } else {
        dropped := dropped + 1;
        refused := refused + 1;
      }
    }

    method RequestStop()
      requires Enabled(Now(), Close)
      modifies this
      ensures Now() == Apply(old(Now()), Close)
    {
      queue := queue + [None];
      closed := true;
    }

    /** One wait on the queue: an item, or nothing before the deadline. */
    method Get()
      requires pc == Getting
      modifies this
      ensures Now() == Apply(old(Now()), if old(queue) == [] then Timeout else Take)
    {
      if queue != [] {
        var entry := queue[0];
        queue := queue[1..];
        if entry.None? { stopping := true; } else { batch := batch + [entry.value]; }
      }
      pc := Deciding;
    }

    method Continue(early: bool) returns (again: bool)
      requires pc == Deciding
      modifies this`pc
      ensures Now() == Apply(old(Now()), Decide(early)) && (again <==> pc == Getting)
    {
      again := |batch| < BATCH_SIZE && !stopping && early;
      pc := if again then Getting else Flushing;
    }

    method WriteBatch(succeeds: bool)
      requires pc == Flushing
      modifies this
      ensures Now() == Apply(old(Now()), Flush(succeeds))
    {
      if batch != [] {
        if !failed {
          if succeeds { written := written + batch; } else { failed := true; }
        }
        if failed {
          pc := Dropping;
          return;
        }
        batch := [];
      }
      pc := if stopping then Done else Getting;
    }

    method DropBatch()
      requires pc == Dropping
      modifies this
      ensures Now() == Apply(old(Now()), Drop)
    {
      dropped := dropped + |batch|;
      lost := lost + batch;
      batch := [];
      pc := if stopping then Done else Getting;
    }
  }

  // ---- Conservation ----

  function Queued(queue: seq<Option<Entry>>): seq<Entry> {
    if queue == [] then [] else (if queue[0].Some? then [queue[0].value] else []) + Queued(queue[1..])
  }

  lemma {:induction false} QueuedAppend(queue: seq<Option<Entry>>, item: Option<Entry>)
    ensures Queued(queue + [item]) == Queued(queue) + if item.Some? then [item.value] else []
  {
    if queue != [] {
      QueuedAppend(queue[1..], item);
      assert (queue + [item])[1..] == queue[1..] + [item];
    }
  }

  /** Everything emitted is accounted for, in order, and nothing grows beyond its bound. */
  predicate Inv(s: State) {
    && s.accepted == s.written + s.lost + s.batch + Queued(s.queue)
    && s.dropped == |s.lost| + s.refused
    && (!s.failed ==> s.lost == [])
    && |s.queue| <= QUEUE_SIZE && |s.batch| <= BATCH_SIZE
    && (s.pc == Getting ==> |s.batch| < BATCH_SIZE) && (s.pc == Dropping ==> s.failed && s.batch != [])
    && (s.pc in {Getting, Done} ==> (s.pc == Done <==> s.stopping)) && (s.pc == Done ==> s.batch == [])
    && StopRequest(s)
  }

  /** A stop request is the last thing in the queue until the thread has taken it. */
  predicate StopRequest(s: State) {
    && (forall i | 0 <= i < |s.queue| :: s.queue[i].None? ==> i == |s.queue| - 1)
    && (s.closed && !s.stopping <==> s.queue != [] && s.queue[|s.queue| - 1].None?)
    && (s.stopping ==> s.closed && s.queue == [])
  }

  function Emitted(s: State): nat {
    |s.accepted| + s.refused
  }

  lemma EmitKeeps(s: State, entry: Entry)
    requires Inv(s) && Enabled(s, Emit(entry))
    ensures Inv(Apply(s, Emit(entry)))
  {
    QueuedAppend(s.queue, Some(entry));
    var before := s.written + s.lost + s.batch;
    assert before + (Queued(s.queue) + [entry]) == before + Queued(s.queue) + [entry];
  }

  lemma TakeKeeps(s: State)
    requires Inv(s) && Enabled(s, Take)
    ensures Inv(Apply(s, Take))
  {
    var s' := Apply(s, Take);
    if s.queue[0].Some? {
      var before := s.written + s.lost;
      assert before + (s.batch + [s.queue[0].value]) + Queued(s.queue[1..])
          == before + s.batch + ([s.queue[0].value] + Queued(s.queue[1..]));
      assert s'.queue != [] ==> s'.queue[|s'.queue| - 1] == s.queue[|s.queue| - 1];
    }
  }

  lemma FlushKeeps(s: State, succeeds: bool)
    requires Inv(s) && Enabled(s, Flush(succeeds))
    ensures Inv(Apply(s, Flush(succeeds)))
  {
    if !s.failed {
      assert s.written + [] + s.batch + Queued(s.queue) == (s.written + s.batch) + [] + [] + Queued(s.queue);
    }
  }

  lemma DropKeeps(s: State)
    requires Inv(s) && Enabled(s, Drop)
    ensures Inv(Apply(s, Drop))
  {
    assert s.written + s.lost + s.batch + Queued(s.queue) == s.written + (s.lost + s.batch) + [] + Queued(s.queue);
  }

  lemma CloseKeeps(s: State)
    requires Inv(s) && Enabled(s, Close)
    ensures Inv(Apply(s, Close))
  {
    QueuedAppend(s.queue, None);
    assert Queued(s.queue) + [] == Queued(s.queue);
  }

  lemma WaitKeeps(s: State, step: Step)
    requires Inv(s) && Enabled(s, step) && (step.Timeout? || step.Decide?)
    ensures Inv(Apply(s, step))
  {}

  lemma StepKeeps(s: State, step: Step)
    requires Inv(s) && Enabled(s, step)
    ensures Inv(Apply(s, step))
  {
    match step {
      case Emit(entry) => EmitKeeps(s, entry);
      case Close => CloseKeeps(s);
      case Take => TakeKeeps(s);
      case Timeout => WaitKeeps(s, step);
      case Decide(_) => WaitKeeps(s, step);
      case Flush(succeeds) => FlushKeeps(s, succeeds);
      case Drop => DropKeeps(s);
    }
  }

  predicate Next(states: seq<State>, steps: seq<Step>, i: nat)
    requires |states| == |steps| + 1 && i < |steps|
  {
    Enabled(states[i], steps[i]) && states[i + 1] == Apply(states[i], steps[i])
  }

  ghost predicate IsRun(states: seq<State>, steps: seq<Step>) {
    && |states| == |steps| + 1 && states[0] == INITIAL
    && forall i | 0 <= i < |steps| :: Next(states, steps, i)
  }

  lemma {:induction false} RunInv(states: seq<State>, steps: seq<Step>, i: nat)
    requires IsRun(states, steps) && i < |states|
    ensures Inv(states[i])
  {
    if i > 0 {
      RunInv(states, steps, i - 1);
      assert Next(states, steps, i - 1);
      StepKeeps(states[i - 1], steps[i - 1]);
    }
  }

  function EmitCount(steps: seq<Step>): nat {
    if steps == [] then 0 else EmitCount(steps[..|steps| - 1]) + if steps[|steps| - 1].Emit? then 1 else 0
  }

  lemma {:induction false} EmitsCounted(states: seq<State>, steps: seq<Step>, i: nat)
    requires IsRun(states, steps) && i < |states|
    ensures EmitCount(steps[..i]) == Emitted(states[i])
  {
    if i > 0 {
      EmitsCounted(states, steps, i - 1);
      assert Next(states, steps, i - 1);
      assert steps[..i][..i - 1] == steps[..i - 1];
    }
  }

  /** At every step of every run: emitted = queued + batched + written + dropped; what was written is a prefix of what
      was accepted, in order; and no batch or queue exceeds its bound. */
  lemma Conservation(states: seq<State>, steps: seq<Step>, i: nat)
    requires IsRun(states, steps) && i < |states|
    ensures var s := states[i];
      && EmitCount(steps[..i]) == |Queued(s.queue)| + |s.batch| + |s.written| + s.dropped
      && s.written <= s.accepted && |s.batch| <= BATCH_SIZE && |s.queue| <= QUEUE_SIZE
      && (!s.failed && s.refused == 0 ==> s.dropped == 0)
  {
    RunInv(states, steps, i);
    EmitsCounted(states, steps, i);
    var s := states[i];
    assert s.accepted == s.written + (s.lost + s.batch + Queued(s.queue));
  }

  /** When the thread has ended, everything emitted was written or counted as dropped. */
  lemma ClosedAccountsForAll(states: seq<State>, steps: seq<Step>, i: nat)
    requires IsRun(states, steps) && i < |states| && states[i].pc == Done
    ensures EmitCount(steps[..i]) == |states[i].written| + states[i].dropped
    ensures !states[i].failed ==> states[i].written == states[i].accepted
  {
    RunInv(states, steps, i);
    Conservation(states, steps, i);
    if !states[i].failed { assert states[i].accepted == states[i].written + [] + [] + []; }
  }

  // ---- What is lost, and why ----

  /** An entry is accepted exactly when the queue has room, and refused ones are counted. */
  lemma AcceptedWithRoom(states: seq<State>, steps: seq<Step>, i: nat, entry: Entry)
    requires IsRun(states, steps) && i < |steps| && steps[i] == Emit(entry)
    ensures var s, s' := states[i], states[i + 1];
      s' == if |s.queue| < 2048 then s.(queue := s.queue + [Some(entry)], accepted := s.accepted + [entry])
            else s.(dropped := s.dropped + 1, refused := s.refused + 1)
  {
    assert Next(states, steps, i);
  }

  /** A step in which a write of entries fails. */
  predicate WriteFails(s: State, step: Step) {
    step == Flush(false) && s.batch != []
  }

  /** The thread gives up writing exactly after a write has failed. */
  lemma {:induction false} GivesUpExactly(states: seq<State>, steps: seq<Step>, i: nat)
    requires IsRun(states, steps) && i < |states|
    ensures states[i].failed <==> exists k: nat :: k < i && WriteFails(states[k], steps[k])
  {
    if i > 0 {
      GivesUpExactly(states, steps, i - 1);
      assert Next(states, steps, i - 1);
    }
  }

  /** What a run has emitted, in order. */
  function Entries(steps: seq<Step>): seq<Entry> {
    if steps == [] then []
    else Entries(steps[..|steps| - 1]) + match steps[|steps| - 1] case Emit(entry) => [entry] case _ => []
  }

  /** Every entry emitted so far found room. */
  predicate AlwaysRoom(states: seq<State>, steps: seq<Step>, i: nat)
    requires |states| == |steps| + 1 && i <= |steps|
  {
    forall k: nat | k < i && steps[k].Emit? :: |states[k].queue| < QUEUE_SIZE
  }

  lemma {:induction false} AllAccepted(states: seq<State>, steps: seq<Step>, i: nat)
    requires IsRun(states, steps) && i < |states| && AlwaysRoom(states, steps, i)
    ensures states[i].accepted == Entries(steps[..i]) && states[i].refused == 0
  {
    if i > 0 {
      AllAccepted(states, steps, i - 1);
      assert Next(states, steps, i - 1);
      assert steps[..i][..i - 1] == steps[..i - 1];
    }
  }

  /** When the queue always had room and no write failed, the closed log is what was emitted, entry by entry. */
  lemma NothingLost(states: seq<State>, steps: seq<Step>, i: nat)
    requires IsRun(states, steps) && i < |states| && states[i].pc == Done && AlwaysRoom(states, steps, i)
    requires forall k: nat | k < i :: !WriteFails(states[k], steps[k])
    ensures states[i].written == Entries(steps[..i]) && states[i].dropped == 0
  {
    AllAccepted(states, steps, i);
    GivesUpExactly(states, steps, i);
    ClosedAccountsForAll(states, steps, i);
    RunInv(states, steps, i);
  }

  /** A batch waits for its deadline unless it is full or the thread is to stop. */
  lemma WaitsForDeadline(states: seq<State>, steps: seq<Step>, i: nat, early: bool)
    requires IsRun(states, steps) && i < |steps| && steps[i] == Decide(early)
    ensures states[i + 1].pc == Getting <==> early && |states[i].batch| < 100 && !states[i].stopping
    ensures states[i + 1] == states[i].(pc := if states[i + 1].pc == Getting then Getting else Flushing)
    ensures |states[i].batch| <= 100
  {
    assert Next(states, steps, i);
    RunInv(states, steps, i);
  }

  // ---- Closing ends the thread ----

  function Left(s: State): nat {
    4 * |s.queue| + match s.pc case Deciding => 3 case Flushing => 2 case Dropping => 1 case Getting => 0 case Done => 0
  }

  /** After the stop request every step brings the thread closer to its end, and until then it has one. */
  lemma CloseEnds(s: State, step: Step)
    requires Inv(s) && s.closed
    ensures Enabled(s, step) ==> Left(Apply(s, step)) < Left(s)
    ensures s.pc != Done <==> Enabled(s, Take) || Enabled(s, Decide(true)) || Enabled(s, Flush(true)) || Enabled(s, Drop)
  {
    assert s.queue == [] ==> s.stopping;
  }
}
