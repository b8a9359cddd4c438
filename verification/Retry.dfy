/**
 One provisioning job between the API and the worker: its row, its attempts counter in
 Redis and its entries in the queue. Entry `n` has the Bull id `db-<job>-a<n>`, and adding
 an id the queue still knows is ignored by BullMQ.
 */
module Retry {
  import opened Calls
  import opened Common

  datatype Status =
    | PENDING | CREATING | PROVISIONING | WAITING_FOR_GUEST | CONFIGURING | VERIFYING | GUACAMOLE_CREATING
    | READY | FAILED | CANCELLED

  predicate Terminal(s: Status) {
    s.READY? || s.FAILED? || s.CANCELLED?
  }

  /** `Doomed` entries were claimed but found the row terminal; `Over` ones are retained for a while. */
  datatype Entry = Waiting | Claimed | Running | Doomed | Over

  datatype State = State(status: Status, attempts: nat, queue: map<nat, Entry>, linked: Option<nat>)

  /**
   Where a retry breaks. The reset of row and steps comes before the guarded part, so nothing compensates
   for its failure; `done` says whether a call took effect although it failed.
   */
  datatype Fault = NoFault | ResetFails(done: bool) | GetFails | SetFails(done: bool) | NoQueue | AddFails(done: bool) | LinkFails(done: bool)

  /** `healed` says whether the compensation, an update to FAILED, reaches the row. */
  datatype Event =
    | RetryJob(fault: Fault, healed: bool)
    | CancelJob(removeFails: bool)
    | Rollback
    | Claim(n: nat)
    | Start(n: nat)
    | Progress(n: nat, status: Status)
    | Finish(n: nat, ready: bool)
    | Throws(n: nat)
    | Reschedule(n: nat, add: Fate, healed: bool)
    | Evict(n: nat)

  /** `queue.add` with the id of attempt `n`. */
  function Add(queue: map<nat, Entry>, n: nat): map<nat, Entry> {
    if n in queue then queue else queue[n := Waiting]
  }

  /** The retry after its checks: reset, count, enqueue, link; on any fault past the reset back to FAILED. */
  function Retried(s: State, fault: Fault, healed: bool): State {
    var n := s.attempts + 1;
    var broken := s.(status := if healed then FAILED else PENDING);
    match fault
    case NoFault => State(PENDING, n, Add(s.queue, n), Some(n))
    case ResetFails(done) => if done then s.(status := PENDING) else s
    case GetFails => broken
    case SetFails(done) => broken.(attempts := if done then n else s.attempts)
    case NoQueue => broken.(attempts := n)
    case AddFails(done) => broken.(attempts := n, queue := if done then Add(s.queue, n) else s.queue)
    case LinkFails(done) => broken.(attempts := n, queue := Add(s.queue, n), linked := if done then Some(n) else s.linked)
  }

  /** An entry can be removed while no worker holds it. */
  function Removed(queue: map<nat, Entry>, n: nat): map<nat, Entry> {
    if n in queue && (queue[n].Waiting? || queue[n].Over?) then queue - {n} else queue
  }

  predicate Is(s: State, n: nat, entry: Entry) {
    n in s.queue && s.queue[n] == entry
  }

  function Put(s: State, n: nat, entry: Entry): State {
    s.(queue := s.queue[n := entry])
  }

  const MAX_WAIT_ATTEMPTS := 30

  function Step(s: State, e: Event): State {
    match e
    case RetryJob(fault, healed) => if Terminal(s.status) then Retried(s, fault, healed) else s
    case CancelJob(removeFails) =>
      if Terminal(s.status) then s
      else s.(status := CANCELLED, queue := if s.linked.Some? && !removeFails then Removed(s.queue, s.linked.value) else s.queue)
    case Rollback => s.(status := CANCELLED)
    case Claim(n) => if Is(s, n, Waiting) then Put(s, n, Claimed) else s
    case Start(n) => if !Is(s, n, Claimed) then s else if Terminal(s.status) then Put(s, n, Doomed) else Put(s, n, Running)
    case Progress(n, status) => if Is(s, n, Running) && status != PENDING then s.(status := status) else s
    case Finish(n, ready) =>
      if Is(s, n, Running) then Put(s.(status := if ready then READY else FAILED), n, Over)
      else if Is(s, n, Doomed) then Put(s, n, Over)
      else s
    case Throws(n) => if Is(s, n, Claimed) || Is(s, n, Running) then Put(s, n, Over) else s
    case Reschedule(n, add, healed) =>
      if !Is(s, n, Running) then s
      else
        var over := Put(s, n, Over);
        var failed := if healed then FAILED else s.status;
        if n + 1 >= MAX_WAIT_ATTEMPTS then over.(status := failed)
        else
          var queue := if add.Lost? then over.queue else Add(over.queue, n + 1);
          over.(status := if add.Answered? then s.status else failed, queue := queue)
    case Evict(n) => if Is(s, n, Over) then s.(queue := s.queue - {n}) else s
  }

  function Run(s: State, es: seq<Event>): State
    decreases |es|
  {
    if es == [] then s else Run(Step(s, es[0]), es[1..])
  }

  /** A newly enqueued job. */
  const NEW := State(PENDING, 0, map[0 := Waiting], Some(0))

  /** Entry `n` is queued or held by a worker that will still act on the row. */
  predicate LiveAt(s: State, n: nat) {
    Is(s, n, Waiting) || Is(s, n, Claimed) || Is(s, n, Running)
  }

  /** Somebody will pick the job up, or has. */
  ghost predicate Alive(s: State) {
    exists n :: LiveAt(s, n)
  }

  /** The promise: no job is left non-terminal with no attempt to come. */
  ghost predicate Sound(s: State) {
    Terminal(s.status) || Alive(s)
  }

  // -- Single steps -----------------------------------------------------------------------

  /** Whether the retry's attempt reaches the queue, and whether the row then reads as unfinished. */
  predicate Enqueues(fault: Fault) {
    fault.NoFault? || fault.LinkFails? || fault == AddFails(true)
  }

  predicate LeavesPending(fault: Fault, healed: bool) {
    if fault.ResetFails? then fault.done else fault.NoFault? || !healed
  }

  /**
   A retry that finishes leaves the row PENDING, its attempt linked and known to the queue. One that does not
   leaves it PENDING exactly when the reset took effect and nothing compensated, and else terminal.
   */
  lemma RetryEnds(s: State, fault: Fault, healed: bool)
    requires Terminal(s.status)
    ensures var t := Step(s, RetryJob(fault, healed));
            && (if LeavesPending(fault, healed) then t.status == PENDING else Terminal(t.status))
            && (fault.NoFault? ==> t.attempts in t.queue && t.linked == Some(t.attempts))
            && (!fault.NoFault? && !fault.ResetFails? ==> (t.status == FAILED <==> healed))
            && t.attempts == s.attempts + (if fault.ResetFails? || fault.GetFails? || fault == SetFails(false) then 0 else 1)
            && t.queue == (if Enqueues(fault) && s.attempts + 1 !in s.queue then s.queue[s.attempts + 1 := Waiting] else s.queue)
            && t.linked == (if fault.NoFault? || fault == LinkFails(true) then Some(s.attempts + 1) else s.linked)
  {
  }

  /** A retry leaves the job to nobody exactly when the row reads PENDING, nothing was alive, and no fresh id was enqueued. */
  lemma RetryStrands(s: State, fault: Fault, healed: bool)
    requires Terminal(s.status)
    ensures !Sound(Step(s, RetryJob(fault, healed))) <==>
            LeavesPending(fault, healed) && !Alive(s) && !(Enqueues(fault) && s.attempts + 1 !in s.queue)
  {
    var t := Step(s, RetryJob(fault, healed));
    if Enqueues(fault) && s.attempts + 1 !in s.queue {
      assert LiveAt(t, s.attempts + 1);
    } else {
      assert t.queue == s.queue;
      forall n ensures LiveAt(t, n) <==> LiveAt(s, n) {}
    }
  }

  /** So a clean one does exactly when its id is still known from an earlier attempt and nothing else is alive. */
  lemma CleanRetryStrands(s: State, healed: bool)
    requires Terminal(s.status)
    ensures !Alive(Step(s, RetryJob(NoFault, healed))) <==> s.attempts + 1 in s.queue && !Alive(s)
  {
    RetryStrands(s, NoFault, healed);
  }

  /** A reschedule below the limit strands the job exactly when the next id is still known and no other entry is alive. */
  lemma RescheduleStrands(s: State, n: nat, healed: bool)
    requires Is(s, n, Running) && n + 1 < MAX_WAIT_ATTEMPTS
    ensures !Alive(Step(s, Reschedule(n, Answered, healed))) <==> n + 1 in s.queue && !AliveBeside(s, n)
  {
    AliveAfter(s, Reschedule(n, Answered, healed));
  }

  ghost predicate AliveBeside(s: State, n: nat) {
    exists m :: m != n && LiveAt(s, m)
  }

  /** Whether a reschedule below the limit gets the next attempt into the queue under a fresh id. */
  predicate Continues(s: State, n: nat, add: Fate) {
    n + 1 < MAX_WAIT_ATTEMPTS && !add.Lost? && n + 1 !in s.queue
  }

  /** What is alive once the worker gives up entry `n`. */
  lemma AliveAfter(s: State, e: Event)
    requires (e.Throws? && (Is(s, e.n, Claimed) || Is(s, e.n, Running))) || (e.Reschedule? && Is(s, e.n, Running))
    ensures Alive(Step(s, e)) <==> AliveBeside(s, e.n) || (e.Reschedule? && Continues(s, e.n, e.add))
  {
    var t := Step(s, e);
    if e.Reschedule? && Continues(s, e.n, e.add) {
      assert LiveAt(t, e.n + 1);
    } else {
      forall m ensures LiveAt(t, m) <==> m != e.n && LiveAt(s, m) {}
    }
  }

  /**
   What a step must find. A retry that leaves the row PENDING: something alive, or a fresh id for an attempt that
   reaches the queue. A reschedule or an exception that leaves an unfinished row as it is: another live entry, or
   a fresh id for the next attempt. Every other event is free.
   */
  ghost predicate Guarded(s: State, e: Event) {
    match e
    case RetryJob(fault, healed) =>
      Terminal(s.status) && LeavesPending(fault, healed) ==> Alive(s) || (Enqueues(fault) && s.attempts + 1 !in s.queue)
    case Reschedule(n, add, healed) =>
      Is(s, n, Running) && !Terminal(s.status) && (!healed || (n + 1 < MAX_WAIT_ATTEMPTS && add.Answered?)) ==>
        AliveBeside(s, n) || Continues(s, n, add)
    case Throws(n) =>
      (Is(s, n, Claimed) || Is(s, n, Running)) && !Terminal(s.status) ==> AliveBeside(s, n)
    case _ => true
  }

  lemma OtherStepsKeepSound(s: State, e: Event)
    requires Sound(s) && !e.RetryJob? && !e.Reschedule? && !e.Throws?
    ensures Sound(Step(s, e))
  {
    var t := Step(s, e);
    if !Terminal(t.status) && !Terminal(s.status) {
      var n :| LiveAt(s, n);
      assert LiveAt(t, n);
    } else if !Terminal(t.status) {
      assert e.Progress? && LiveAt(t, e.n);
    }
  }

  /** A step from a sound state leads to a sound state exactly when it is guarded. */
  lemma StepSound(s: State, e: Event)
    requires Sound(s)
    ensures Sound(Step(s, e)) <==> Guarded(s, e)
  {
    if e.RetryJob? {
      if Terminal(s.status) { RetryStrands(s, e.fault, e.healed); }
    } else if e.Reschedule? {
      if Is(s, e.n, Running) { AliveAfter(s, e); }
      hide Alive, AliveBeside;
    } else if e.Throws? {
      if Is(s, e.n, Claimed) || Is(s, e.n, Running) { AliveAfter(s, e); }
      hide Alive, AliveBeside;
    } else {
      OtherStepsKeepSound(s, e);
    }
  }

  // -- Whole runs ---------------------------------------------------------------------------

  ghost predicate AlwaysSound(s: State, es: seq<Event>)
    decreases |es|
  {
    Sound(s) && (es != [] ==> AlwaysSound(Step(s, es[0]), es[1..]))
  }

  ghost predicate AlwaysGuarded(s: State, es: seq<Event>)
    decreases |es|
  {
    es != [] ==> Guarded(s, es[0]) && AlwaysGuarded(Step(s, es[0]), es[1..])
  }

  /**
   Over every run of retries, cancels, rollbacks, claims, worker runs, exceptions, reschedules and
   evictions, with faults anywhere, no state is left to nobody if and only if every step is guarded.
   */
  lemma {:induction false} RetryNeverStrands(s: State, es: seq<Event>)
    requires Sound(s)
    ensures AlwaysSound(s, es) <==> AlwaysGuarded(s, es)
    decreases |es|
  {
    if es != [] {
      StepSound(s, es[0]);
      hide Sound, Step, Guarded;
      if Guarded(s, es[0]) { RetryNeverStrands(Step(s, es[0]), es[1..]); }
    }
  }

  /** The event gets through, or what it leaves unfinished is compensated. */
  predicate Repaired(e: Event) {
    && !e.Throws?
    && (e.Reschedule? ==> e.healed)
    && (e.RetryJob? ==> if e.fault.ResetFails? then !e.fault.done else e.healed)
  }

  /** Attempt ids never run ahead of the counter. */
  predicate Counted(s: State) {
    forall n :: n in s.queue ==> n <= s.attempts
  }

  /** Without reschedules ids come from the counter alone, and every retry finds a fresh one. */
  lemma {:induction false} CountedRunsAreGuarded(s: State, es: seq<Event>)
    requires Counted(s) && forall i :: 0 <= i < |es| ==> !es[i].Reschedule? && Repaired(es[i])
    ensures AlwaysGuarded(s, es)
    decreases |es|
  {
    if es != [] {
      assert Counted(Step(s, es[0]));
      assert Guarded(s, es[0]);
      hide Counted, Step, Guarded, Repaired;
      CountedRunsAreGuarded(Step(s, es[0]), es[1..]);
    }
  }

  /** So a new job that is never rescheduled is never left to nobody, as long as no attempt throws and no compensation fails. */
  lemma NewJobNeverStrands(es: seq<Event>)
    requires forall i :: 0 <= i < |es| ==> !es[i].Reschedule? && Repaired(es[i])
    ensures AlwaysSound(NEW, es)
  {
    assert LiveAt(NEW, 0);
    CountedRunsAreGuarded(NEW, es);
    RetryNeverStrands(NEW, es);
  }

  /** Only the latest entry, `k`, may still be alive. */
  predicate Chained(s: State, k: nat) {
    forall n :: n in s.queue ==> n <= k && (n < k ==> !LiveAt(s, n))
  }

  /** Without retries a reschedule always hands on to a fresh id. */
  lemma {:induction false} ChainedRunsAreGuarded(s: State, k: nat, es: seq<Event>)
    requires Chained(s, k) && forall i :: 0 <= i < |es| ==> !es[i].RetryJob? && Repaired(es[i])
    ensures AlwaysGuarded(s, es)
    decreases |es|
  {
    if es != [] {
      var t := Step(s, es[0]);
      var k' := if k + 1 in t.queue then k + 1 else k;
      assert Guarded(s, es[0]);
      ChainedStep(s, k, es[0]);
      hide Chained, Step, Guarded, Repaired;
      ChainedRunsAreGuarded(t, k', es[1..]);
    }
  }

  lemma ChainedStep(s: State, k: nat, e: Event)
    requires Chained(s, k) && !e.RetryJob?
    ensures var t := Step(s, e); Chained(t, if k + 1 in t.queue then k + 1 else k)
  {
    hide Terminal;
    var t := Step(s, e);
    if e.Reschedule? && Is(s, e.n, Running) {
      assert LiveAt(s, e.n) && e.n == k;
    } else {
      assert t.queue.Keys <= s.queue.Keys && k + 1 !in s.queue;
      forall n | n in t.queue && n < k ensures !LiveAt(t, n) { assert !LiveAt(s, n); }
    }
  }

  /** A new job that is never retried is safe under the same proviso, however often it is rescheduled. */
  lemma UnretriedNeverStrands(es: seq<Event>)
    requires forall i :: 0 <= i < |es| ==> !es[i].RetryJob? && Repaired(es[i])
    ensures AlwaysSound(NEW, es)
  {
    assert LiveAt(NEW, 0);
    ChainedRunsAreGuarded(NEW, 0, es);
    RetryNeverStrands(NEW, es);
  }

  // -- Failures that nothing compensates ----------------------------------------------------

  /** An attempt that throws before its guarded part leaves a new job PENDING with nobody to run it. */
  lemma ThrowStrands()
    ensures var s := Run(NEW, [Claim(0), Start(0), Throws(0)]); s.status == PENDING && !Sound(s)
  {
    var es := [Claim(0), Start(0), Throws(0)];
    assert es[2..] == [es[2]];
    var s2 := Step(Step(NEW, es[0]), es[1]);
    assert s2.queue == map[0 := Running];
    assert Step(s2, es[2]).queue == map[0 := Over];
    assert Run(NEW, es) == Run(s2, es[2..]);
    RunOne(s2, es[2]);
  }

  /** So does a retry whose reset breaks off after the row, on any finished job with nothing alive. */
  lemma HalfResetStrands(s: State, healed: bool)
    requires Terminal(s.status) && !Alive(s)
    ensures var t := Step(s, RetryJob(ResetFails(true), healed)); t.status == PENDING && !Sound(t)
  {
    RetryStrands(s, ResetFails(true), healed);
  }

  // -- Reschedules use up ids the counter does not know about -----------------------------

  lemma {:induction false} RunCat(s: State, a: seq<Event>, b: seq<Event>)
    ensures Run(s, a + b) == Run(Run(s, a), b)
    decreases |a|
  {
    if a == [] {
      assert a + b == b;
    } else {
      assert (a + b)[1..] == a[1..] + b;
      RunCat(Step(s, a[0]), a[1..], b);
    }
  }

  /** A worker takes entry `n`, finds the guest not ready and puts the job back as entry `n + 1`. */
  function Wait(n: nat): seq<Event> {
    [Claim(n), Start(n), Progress(n, WAITING_FOR_GUEST), Reschedule(n, Answered, true)]
  }

  lemma WaitMoves(s: State, n: nat)
    requires Is(s, n, Waiting) && !Terminal(s.status) && n + 1 < MAX_WAIT_ATTEMPTS
    ensures Run(s, Wait(n)) == s.(status := WAITING_FOR_GUEST, queue := Add(s.queue[n := Over], n + 1))
  {
    var es := Wait(n);
    assert es[2..] == [es[2], es[3]] && es[3..] == [es[3]];
    var s2 := Step(Step(s, es[0]), es[1]);
    assert s2.queue == s.queue[n := Running];
    var s3 := Step(s2, es[2]);
    assert Put(s3, n, Over).queue == s.queue[n := Over];
    assert Run(s, es) == Run(s2, es[2..]);
    assert Run(s2, es[2..]) == Run(s3, es[3..]);
    assert Run(s3, es[3..]) == Run(Step(s3, es[3]), []);
  }

  /** A worker takes entry `n` and the job fails. */
  function Fail(n: nat): seq<Event> {
    [Claim(n), Start(n), Finish(n, false)]
  }

  lemma FailMoves(s: State, n: nat)
    requires Is(s, n, Waiting) && !Terminal(s.status)
    ensures Run(s, Fail(n)) == s.(status := FAILED, queue := s.queue[n := Over])
  {
    var es := Fail(n);
    assert es[2..] == [es[2]];
    var s2 := Step(Step(s, es[0]), es[1]);
    assert s2.queue == s.queue[n := Running];
    assert Step(s2, es[2]).queue == s.queue[n := Over];
    assert Run(s, es) == Run(s2, es[2..]);
  }

  /** One reschedule, one failure and one retry: the retry reports success and the job is PENDING with nobody to run it. */
  lemma RescheduledRetryStrands()
    ensures var s := Run(NEW, Wait(0) + Fail(1) + [RetryJob(NoFault, true)]); s.status == PENDING && !Sound(s)
  {
    WaitMoves(NEW, 0);
    var waited := Run(NEW, Wait(0));
    FailMoves(waited, 1);
    RunCat(NEW, Wait(0), Fail(1));
    RunCat(NEW, Wait(0) + Fail(1), [RetryJob(NoFault, true)]);
    hide Wait, Fail;
    var failed := Run(NEW, Wait(0) + Fail(1));
    assert failed.queue == map[0 := Over, 1 := Over];
    CleanRetryStrands(failed, true);
    RunOne(failed, RetryJob(NoFault, true));
  }

  lemma TwoWaits()
    ensures Run(NEW, Wait(0) + Wait(1)) == State(WAITING_FOR_GUEST, 0, map[0 := Over, 1 := Over, 2 := Waiting], Some(0))
  {
    WaitMoves(NEW, 0);
    var one := State(WAITING_FOR_GUEST, 0, map[0 := Over, 1 := Waiting], Some(0));
    assert Run(NEW, Wait(0)) == one by { assert Run(NEW, Wait(0)).queue == one.queue; }
    WaitMoves(one, 1);
    assert Run(one, Wait(1)).queue == map[0 := Over, 1 := Over, 2 := Waiting];
    hide Wait, Step;
    RunCat(NEW, Wait(0), Wait(1));
  }

  /** After two reschedules and a failure the queue has forgotten entry 1 but not entry 2. */
  lemma AgedQueue()
    ensures Run(NEW, Wait(0) + Wait(1) + Fail(2) + [Evict(1)]) == State(FAILED, 0, map[0 := Over, 2 := Over], Some(0))
  {
    TwoWaits();
    var waits := Wait(0) + Wait(1);
    var two := State(WAITING_FOR_GUEST, 0, map[0 := Over, 1 := Over, 2 := Waiting], Some(0));
    FailMoves(two, 2);
    var failed := State(FAILED, 0, map[0 := Over, 1 := Over, 2 := Over], Some(0));
    assert Run(two, Fail(2)) == failed by { assert Run(two, Fail(2)).queue == failed.queue; }
    assert Step(failed, Evict(1)).queue == map[0 := Over, 2 := Over];
    RunOne(failed, Evict(1));
    hide Wait, Fail, Run, Step;
    RunCat(NEW, waits, Fail(2));
    RunCat(NEW, waits + Fail(2), [Evict(1)]);
  }

  lemma RunOne(s: State, e: Event)
    ensures Run(s, [e]) == Step(s, e)
  {
    assert Run(s, [e]) == Run(Step(s, e), []);
  }

  /** There a retry goes well, and its first reschedule leaves the job waiting for a guest with nobody to run it. */
  lemma RescheduleAfterRetryStrands()
    ensures var s := Run(NEW, Wait(0) + Wait(1) + Fail(2) + [Evict(1)]);
            && Guarded(s, RetryJob(NoFault, true)) && Sound(Step(s, RetryJob(NoFault, true)))
            && var t := Run(Step(s, RetryJob(NoFault, true)), Wait(1)); t.status == WAITING_FOR_GUEST && !Sound(t)
  {
    AgedQueue();
    var s := State(FAILED, 0, map[0 := Over, 2 := Over], Some(0));
    StepSound(s, RetryJob(NoFault, true));
    var retried := Step(s, RetryJob(NoFault, true));
    WaitMoves(retried, 1);
    hide Wait;
    assert Run(retried, Wait(1)).queue == map[0 := Over, 1 := Over, 2 := Over];
  }

  /** A stranded job keeps its status through everything but a cancel or a rollback: a further retry is refused as still active. */
  lemma {:induction false} StrandedStays(s: State, es: seq<Event>)
    requires !Sound(s) && forall i :: 0 <= i < |es| ==> !es[i].CancelJob? && !es[i].Rollback?
    ensures Run(s, es).status == s.status && !Sound(Run(s, es))
    decreases |es|
  {
    if es != [] {
      StrandedStep(s, es[0]);
      hide Step, Sound;
      StrandedStays(Step(s, es[0]), es[1..]);
    }
  }

  lemma StrandedStep(s: State, e: Event)
    requires !Sound(s) && !e.CancelJob? && !e.Rollback?
    ensures Step(s, e).status == s.status && !Sound(Step(s, e))
  {
    var t := Step(s, e);
    if !e.RetryJob? { assert !LiveAt(s, e.n); }
    forall n ensures !LiveAt(t, n) { assert !LiveAt(s, n); }
  }

  // -- What the row says, and why ---------------------------------------------------------------

  /** An accepted cancel reads CANCELLED; if the removal goes through, the linked entry is out of the queue unless a worker holds it. */
  lemma CancelEnds(s: State, removeFails: bool, n: nat)
    requires !Terminal(s.status)
    ensures var t := Step(s, CancelJob(removeFails));
            && t.status == CANCELLED && t.attempts == s.attempts && t.linked == s.linked
            && (n in t.queue <==> n in s.queue && !(!removeFails && s.linked == Some(n) && (s.queue[n] == Waiting || s.queue[n] == Over)))
            && (n in t.queue ==> t.queue[n] == s.queue[n])
  {
  }

  /** How each status comes about. */
  ghost predicate Brings(s: State, e: Event, status: Status) {
    match status
    case READY => (exists n :: Is(s, n, Running) && (e == Finish(n, true) || e == Progress(n, READY)))
    case CANCELLED =>
      || (e.CancelJob? && !Terminal(s.status)) || e.Rollback?
      || exists n :: Is(s, n, Running) && e == Progress(n, CANCELLED)
    case PENDING => e.RetryJob? && Terminal(s.status)
    case FAILED =>
      || (e.RetryJob? && Terminal(s.status) && e.healed && !e.fault.NoFault?)
      || (e.Reschedule? && Is(s, e.n, Running) && e.healed && (e.n + 1 >= 30 || !e.add.Answered?))
      || exists n :: Is(s, n, Running) && (e == Finish(n, false) || e == Progress(n, FAILED))
    case _ => exists n :: Is(s, n, Running) && e == Progress(n, status)
  }

  lemma StatusMoves(s: State, e: Event)
    requires Step(s, e).status != s.status
    ensures Brings(s, e, Step(s, e).status)
  {
    if e.Finish? || e.Progress? { assert Is(s, e.n, Running); }
  }

  /** And what such an event does bring about. */
  lemma StatusComes(s: State, n: nat, status: Status, ready: bool, add: Fate)
    ensures Is(s, n, Running) ==> Step(s, Finish(n, ready)).status == if ready then READY else FAILED
    ensures Is(s, n, Running) && status != PENDING ==> Step(s, Progress(n, status)).status == status
    ensures Is(s, n, Running) && (n >= 29 || !add.Answered?) ==> Step(s, Reschedule(n, add, true)).status == FAILED
    ensures Is(s, n, Running) && n < 29 && add.Answered? ==> Step(s, Reschedule(n, add, true)).status == s.status
    ensures Step(s, Rollback).status == CANCELLED
    ensures Is(s, n, Claimed) ==> Is(Step(s, Start(n)), n, if Terminal(s.status) then Doomed else Running) && Step(s, Start(n)).status == s.status
  {
  }

  /** Over every run, a status that was not there at the start was brought by an event of its own. */
  lemma {:induction false} StatusIsEarned(s: State, es: seq<Event>) returns (i: nat)
    requires Run(s, es).status != s.status
    ensures i < |es| && Brings(Run(s, es[..i]), es[i], Run(s, es).status)
    decreases |es|
  {
    var front, e := es[..|es| - 1], es[|es| - 1];
    assert es == front + [e];
    RunCat(s, front, [e]);
    RunOne(Run(s, front), e);
    hide Step, Run, Brings;
    if Run(s, es).status == Run(s, front).status {
      i := StatusIsEarned(s, front);
      assert front[..i] == es[..i];
    } else {
      i := |es| - 1;
      StatusMoves(Run(s, front), e);
    }
  }

  /** So a job that reads READY has been finished by an attempt a worker was running. */
  lemma ReadyIsEarned(s: State, es: seq<Event>)
    requires s.status != READY && Run(s, es).status == READY
    ensures exists i, n :: 0 <= i < |es| && Is(Run(s, es[..i]), n, Running) && (es[i] == Finish(n, true) || es[i] == Progress(n, READY))
  {
    hide Run;
    var i := StatusIsEarned(s, es);
  }

  // -- The handlers --------------------------------------------------------------------------

  /** The row, the counter and the queue as POST /jobs/:id/retry and /cancel see them. */
  class JobRoutes {
    var status: Status
    var attempts: nat
    var queue: map<nat, Entry>
    var bullJobId: Option<nat>

    function View(): State
      reads this
    {
      State(status, attempts, queue, bullJobId)
    }

    method RetryRequest(fault: Fault, healed: bool) returns (accepted: bool)
      modifies this
      ensures View() == Step(old(View()), RetryJob(fault, healed))
      ensures accepted <==> Terminal(old(status)) && fault.NoFault?
    {
      if !Terminal(status) { return false; }
      if fault.ResetFails? {
        if fault.done { status := PENDING; }
        return false;
      }
      status := PENDING;
      var ok := Enqueue(fault);
      if !ok {
        if healed { status := FAILED; }
        return false;
      }
      return true;
    }

    /** The guarded part: count, add, link; false where it throws. */
    method Enqueue(fault: Fault) returns (ok: bool)
      requires !fault.ResetFails?
      modifies `attempts, `queue, `bullJobId
      ensures ok <==> fault.NoFault?
      ensures View() == Retried(old(View()), fault, true).(status := status)
    {
      if fault.GetFails? { return false; }
      var attempt := attempts + 1;
      if fault.SetFails? {
        if fault.done { attempts := attempt; }
        return false;
      }
      attempts := attempt;
      if fault.NoQueue? { return false; }
      if fault.AddFails? {
        if fault.done { queue := Add(queue, attempt); }
        return false;
      }
      queue := Add(queue, attempt);
      if fault.LinkFails? {
        if fault.done { bullJobId := Some(attempt); }
        return false;
      }
      bullJobId := Some(attempt);
      return true;
    }

    method CancelRequest(removeFails: bool) returns (accepted: bool)
      modifies `status, `queue
      ensures View() == Step(old(View()), CancelJob(removeFails))
      ensures accepted <==> !Terminal(old(status))
    {
      if Terminal(status) { return false; }
      status := CANCELLED;
      if bullJobId.Some? && !removeFails { queue := Removed(queue, bullJobId.value); }
      return true;
    }
  }
}
