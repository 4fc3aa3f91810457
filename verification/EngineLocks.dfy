/** The process-wide engine lock: any number of callers, each of which may be cancelled again and again. */
module EngineLocks {
  import opened Common

  type CallerId = nat

  /** Where a call stands: polling for the lock, running its check before the start, waiting for its thread,
      waiting for it again after a cancellation, or over. */
  datatype Call = Polling | Checking | Awaiting | Settling | Over

  /** The thread of a call: none yet, handed to the thread pool, inside the engine, or ended. */
  datatype Thread = Absent | Scheduled | Running | Ended

  datatype System = System(lock: Option<CallerId>, calls: map<CallerId, Call>, threads: map<CallerId, Thread>)

  datatype Step =
    | Arrive(c: CallerId)
    | Acquire(c: CallerId)
    | CheckFails(c: CallerId)
    | Spawn(c: CallerId)      // the check has passed and the thread is created
    | Enter(c: CallerId)      // the thread starts the engine
    | Leave(c: CallerId)      // the engine returns or raises
    | Resume(c: CallerId)     // the caller learns that its thread has ended
    | Cancel(c: CallerId)     // may come at any time, any number of times

  const INITIAL: System := System(None, map[], map[])

  function CallOf(s: System, c: CallerId): Call {
    if c in s.calls then s.calls[c] else Over
  }

  function ThreadOf(s: System, c: CallerId): Thread {
    if c in s.threads then s.threads[c] else Absent
  }

  predicate Enabled(s: System, step: Step) {
    match step
    case Arrive(c) => c !in s.calls
    case Acquire(c) => CallOf(s, c) == Polling && s.lock.None?
    case CheckFails(c) => CallOf(s, c) == Checking
    case Spawn(c) => CallOf(s, c) == Checking
    case Enter(c) => ThreadOf(s, c) == Scheduled
    case Leave(c) => ThreadOf(s, c) == Running
    case Resume(c) => CallOf(s, c) in {Awaiting, Settling} && ThreadOf(s, c) == Ended
    case Cancel(c) => CallOf(s, c) != Over
  }

  function Put(s: System, c: CallerId, call: Call): System {
    s.(calls := s.calls[c := call])
  }

  function Release(s: System, c: CallerId): System {
    Put(s, c, Over).(lock := None)
  }

  function Apply(s: System, step: Step): System {
    match step
    case Arrive(c) => Put(s, c, Polling).(threads := s.threads[c := Absent])
    case Acquire(c) => Put(s, c, Checking).(lock := Some(c))
    case CheckFails(c) => Release(s, c)
    case Spawn(c) => Put(s, c, Awaiting).(threads := s.threads[c := Scheduled])
    case Enter(c) => s.(threads := s.threads[c := Running])
    case Leave(c) => s.(threads := s.threads[c := Ended])
    case Resume(c) => Release(s, c)
    case Cancel(c) =>
      match CallOf(s, c)
      case Polling => Put(s, c, Over)
      case Checking => Release(s, c)
      case Awaiting => Put(s, c, Settling)
      case Settling => if ThreadOf(s, c) == Ended then Release(s, c) else s
      case Over => s
  }

  /** The lock is held exactly by the call that is past polling and not over, and only that call has a live thread. */
  predicate CallerOk(s: System, c: CallerId) {
    && (s.lock == Some(c) <==> CallOf(s, c) in {Checking, Awaiting, Settling})
    && (ThreadOf(s, c) in {Scheduled, Running} ==> CallOf(s, c) in {Awaiting, Settling})
    && (CallOf(s, c) in {Awaiting, Settling} ==> ThreadOf(s, c) != Absent)
    && (c in s.threads <==> c in s.calls)
    && (CallOf(s, c) in {Polling, Checking} ==> ThreadOf(s, c) == Absent)
  }

  ghost predicate Inv(s: System) {
    forall c :: CallerOk(s, c)
  }

  lemma StepKeeps(s: System, step: Step)
    requires Inv(s) && Enabled(s, step)
    ensures Inv(Apply(s, step))
  {
    var s' := Apply(s, step);
    forall c ensures CallerOk(s', c) {
      assert CallerOk(s, c) && CallerOk(s, step.c);
    }
  }

  ghost predicate IsRun(states: seq<System>, steps: seq<Step>) {
    && |states| == |steps| + 1 && states[0] == INITIAL
    && forall i | 0 <= i < |steps| :: Next(states, steps, i)
  }

  predicate Next(states: seq<System>, steps: seq<Step>, i: nat)
    requires |states| == |steps| + 1 && i < |steps|
  {
    Enabled(states[i], steps[i]) && states[i + 1] == Apply(states[i], steps[i])
  }

  lemma {:induction false} RunInv(states: seq<System>, steps: seq<Step>, i: nat)
    requires IsRun(states, steps) && i < |states|
    ensures Inv(states[i])
  {
    if i > 0 {
      RunInv(states, steps, i - 1);
      assert Next(states, steps, i - 1);
      StepKeeps(states[i - 1], steps[i - 1]);
    }
  }

  /** At most one engine call runs at a time. */
  lemma OneEngine(states: seq<System>, steps: seq<Step>, i: nat, c: CallerId, d: CallerId)
    requires IsRun(states, steps) && i < |states|
    requires ThreadOf(states[i], c) in {Scheduled, Running} && ThreadOf(states[i], d) in {Scheduled, Running}
    ensures c == d && states[i].lock == Some(c)
  {
    RunInv(states, steps, i);
    assert CallerOk(states[i], c) && CallerOk(states[i], d);
  }

  /** However often a caller is cancelled, its lock is released only when its thread has ended or none was started. */
  lemma ReleasedAfterThread(states: seq<System>, steps: seq<Step>, i: nat, c: CallerId)
    requires IsRun(states, steps) && i < |steps|
    requires states[i].lock == Some(c) && states[i + 1].lock != Some(c)
    ensures states[i + 1].lock == None && ThreadOf(states[i], c) in {Absent, Ended}
  {
    RunInv(states, steps, i);
    assert Next(states, steps, i);
    assert CallerOk(states[i], c) && CallerOk(states[i], steps[i].c);
  }

  lemma ThreadStays(s: System, step: Step, c: CallerId)
    requires Inv(s) && Enabled(s, step) && CallOf(s, c) == Over && c in s.calls
    ensures CallOf(Apply(s, step), c) == Over && c in Apply(s, step).calls && ThreadOf(Apply(s, step), c) == ThreadOf(s, c)
  {
    assert CallerOk(s, c);
  }

  /** A call that is over leaves nothing behind: its thread never runs again, or never ran at all. */
  lemma {:induction false} NothingLeftBehind(states: seq<System>, steps: seq<Step>, i: nat, k: nat, c: CallerId)
    requires IsRun(states, steps) && i <= k < |states| && c in states[i].calls && CallOf(states[i], c) == Over
    ensures c in states[k].calls && CallOf(states[k], c) == Over
    ensures ThreadOf(states[k], c) == ThreadOf(states[i], c) && ThreadOf(states[k], c) in {Absent, Ended}
    decreases k
  {
    RunInv(states, steps, k);
    assert CallerOk(states[k], c);
    if i < k {
      NothingLeftBehind(states, steps, i, k - 1, c);
      RunInv(states, steps, k - 1);
      assert Next(states, steps, k - 1);
      ThreadStays(states[k - 1], steps[k - 1], c);
    }
  }

  // ---- Calls get through ----

  /** Whoever polls a free lock can take it and, left alone, goes through its check and its thread to the end, after which
      the lock is free again. */
  lemma LeftAloneItRuns(states: seq<System>, steps: seq<Step>, i: nat, c: CallerId)
    requires IsRun(states, steps) && i < |states| && states[i].lock.None? && CallOf(states[i], c) == Polling
    ensures var s := states[i];
      var s1 := Apply(s, Acquire(c)); var s2 := Apply(s1, Spawn(c)); var s3 := Apply(s2, Enter(c));
      var s4 := Apply(s3, Leave(c)); var s5 := Apply(s4, Resume(c));
      && Enabled(s, Acquire(c)) && s1.lock == Some(c)
      && Enabled(s1, Spawn(c)) && Enabled(s2, Enter(c)) && ThreadOf(s3, c) == Running && s3.lock == Some(c)
      && Enabled(s3, Leave(c)) && Enabled(s4, Resume(c))
      && CallOf(s5, c) == Over && ThreadOf(s5, c) == Ended && s5.lock.None?
      && forall d | d != c :: CallOf(s5, d) == CallOf(s, d) && ThreadOf(s5, d) == ThreadOf(s, d)
  {
    RunInv(states, steps, i);
    assert CallerOk(states[i], c);
  }

  /** A cancellation ends a call at once unless its thread was started; then the call keeps the lock until it has seen the
      thread end, and a further cancellation ends it only if it has ended. */
  lemma CancelExact(states: seq<System>, steps: seq<Step>, i: nat, c: CallerId)
    requires IsRun(states, steps) && i < |steps| && steps[i] == Cancel(c)
    ensures var s, s' := states[i], states[i + 1];
      && s'.threads == s.threads && (forall d | d != c :: CallOf(s', d) == CallOf(s, d))
      && (CallOf(s', c) == Over <==>
            ThreadOf(s, c) == Absent || (CallOf(s, c) == Settling && ThreadOf(s, c) == Ended))
      && (CallOf(s', c) != Over ==> CallOf(s', c) == Settling)
      && s'.lock == (if CallOf(s', c) == Over && s.lock == Some(c) then None else s.lock)
  {
    RunInv(states, steps, i);
    assert Next(states, steps, i);
    assert CallerOk(states[i], c);
  }

  /** The lock never stays behind: its holder can always go on, and once its thread has ended the holder can release. */
  lemma HolderCanGoOn(states: seq<System>, steps: seq<Step>, i: nat, c: CallerId)
    requires IsRun(states, steps) && i < |states| && states[i].lock == Some(c)
    ensures Enabled(states[i], Spawn(c)) || Enabled(states[i], Enter(c))
         || Enabled(states[i], Leave(c)) || Enabled(states[i], Resume(c))
    ensures ThreadOf(states[i], c) == Ended ==> Apply(states[i], Resume(c)).lock == None
  {
    RunInv(states, steps, i);
    assert CallerOk(states[i], c);
  }
}
