/**
 First-run setup as an interleaving: any number of completion requests, each split at
 its awaits, any of which may fail. Between two awaits a handler runs alone.
 */
module Setup {
  import opened Common

  type RequestId = int

  datatype Refusal = Forbidden | Unauthorized | Conflict | Validation | Failed

  /** Where a request stands; the middle six hold the critical section. */
  datatype Pc =
    | Checking     // awaiting configExists()
    | Saving       // awaiting saveConfig()
    | Connecting   // awaiting PostgreSQL, Redis and createCore()
    | Creating     // awaiting users.create()
    | Marking      // awaiting markInitialAdmin()
    | Finishing    // awaiting the settings, the audit row and the checks
    | Succeeded
    | Ended(why: Refusal)

  predicate Critical(pc: Pc) {
    !pc.Succeeded? && !pc.Ended?
  }

  /** An awaited write: it may fail before or after taking effect. */
  datatype Write = NotDone | DoneThenFailed | Done

  predicate Happened(w: Write) {
    w != NotDone
  }

  /** Module variables and the outside world, then the history: who wrote the config, who inserted and who marked an administrator. */
  datatype State = State(
    configured: bool,
    token: Option<string>,
    inProgress: bool,
    file: bool,
    pcs: map<RequestId, Pc>,
    writes: seq<RequestId>,
    accounts: seq<RequestId>,
    marked: seq<RequestId>,
    misreads: nat)

  /** One uninterrupted stretch of one request, with the outcome of the await it resumes from. */
  datatype Event =
    | Begin(r: RequestId, provided: Option<string>, bodyOk: bool)
    | Checked(r: RequestId, accessFails: bool)
    | Saved(r: RequestId, write: Write)
    | Connected(r: RequestId, ok: bool)
    | Created(r: RequestId, write: Write)
    | Marked(r: RequestId, write: Write)
    | Finished(r: RequestId, ok: bool, newToken: string)

  predicate Authorised(s: State, provided: Option<string>) {
    provided.Some? && s.token == provided
  }

  /** Leaving the critical section runs the `finally` block. */
  function Leave(s: State, r: RequestId, pc: Pc): State {
    s.(pcs := s.pcs[r := pc], inProgress := false)
  }

  function Go(s: State, r: RequestId, pc: Pc): State {
    s.(pcs := s.pcs[r := pc])
  }

  function Enter(s: State, r: RequestId, provided: Option<string>, bodyOk: bool): State {
    if s.configured then Go(s, r, Ended(Forbidden))
    else if !Authorised(s, provided) then Go(s, r, Ended(Unauthorized))
    else if s.inProgress then Go(s, r, Ended(Conflict))
    else if !bodyOk then Leave(s, r, Ended(Validation))
    else Go(s.(inProgress := true), r, Checking)
  }

  /** `configExists` answers no when the file is there but cannot be accessed. */
  function Check(s: State, r: RequestId, accessFails: bool): State {
    if s.file && !accessFails then Leave(s, r, Ended(Conflict))
    else Go(if s.file then s.(misreads := s.misreads + 1) else s, r, Saving)
  }

  function Save(s: State, r: RequestId, write: Write): State {
    var t := if Happened(write) then s.(file := true, writes := s.writes + [r]) else s;
    if write.Done? then Go(t, r, Connecting) else Leave(t, r, Ended(Failed))
  }

  function Create(s: State, r: RequestId, write: Write): State {
    var t := if Happened(write) then s.(accounts := s.accounts + [r]) else s;
    if write.Done? then Go(t, r, Marking) else Leave(t, r, Ended(Failed))
  }

  function Mark(s: State, r: RequestId, write: Write): State {
    var t := if Happened(write) then s.(marked := s.marked + [r]) else s;
    if write.Done? then Go(t, r, Finishing) else Leave(t, r, Ended(Failed))
  }

  /** Success rotates the token on the way out. */
  function Finish(s: State, r: RequestId, ok: bool, newToken: string): State {
    if ok then Leave(s.(token := Some(newToken)), r, Succeeded) else Leave(s, r, Ended(Failed))
  }

  predicate At(s: State, r: RequestId, pc: Pc) {
    r in s.pcs && s.pcs[r] == pc
  }

  /** Events that do not fit where the request stands change nothing. */
  function Step(s: State, e: Event): State {
    match e
    case Begin(r, provided, bodyOk) => if r in s.pcs then s else Enter(s, r, provided, bodyOk)
    case Checked(r, accessFails) => if At(s, r, Checking) then Check(s, r, accessFails) else s
    case Saved(r, write) => if At(s, r, Saving) then Save(s, r, write) else s
    case Connected(r, ok) =>
      if !At(s, r, Connecting) then s else if ok then Go(s, r, Creating) else Leave(s, r, Ended(Failed))
    case Created(r, write) => if At(s, r, Creating) then Create(s, r, write) else s
    case Marked(r, write) => if At(s, r, Marking) then Mark(s, r, write) else s
    case Finished(r, ok, newToken) => if At(s, r, Finishing) then Finish(s, r, ok, newToken) else s
  }

  function Run(s: State, es: seq<Event>): State
    decreases |es|
  {
    if es == [] then s else Run(Step(s, es[0]), es[1..])
  }

  /** A fresh process: `initSetupToken` has run unless the instance is configured. */
  predicate Fresh(s: State) {
    && !s.inProgress && s.pcs == map[] && s.writes == [] && s.accounts == [] && s.marked == [] && s.misreads == 0
    && s.configured == s.token.None?
  }

  // -- The invariant -----------------------------------------------------------

  function One(b: bool): nat {
    if b then 1 else 0
  }

  /** `h` is the request in the critical section, if there is one. */
  ghost predicate Holds(s: State, h: Option<RequestId>) {
    && (h.Some? ==> h.value in s.pcs && Critical(s.pcs[h.value]))
    && (forall r :: r in s.pcs ==> (Critical(s.pcs[r]) <==> h.Some? && h.value == r))
    && s.inProgress == h.Some?
  }

  /** Each stage's history is bounded by the stage before it, counting the holder's unfinished step. */
  ghost predicate Counted(s: State, h: Option<RequestId>)
    requires h.Some? ==> h.value in s.pcs
  {
    var pc := if h.Some? then s.pcs[h.value] else Succeeded;
    && (!s.file ==> s.writes == [])
    && |s.writes| + One(pc.Saving?) <= 1 + s.misreads
    && |s.accounts| + One(pc.Connecting? || pc.Creating?) <= |s.writes|
    && |s.marked| + One(pc.Marking?) <= |s.accounts|
    && (pc.Connecting? || pc.Creating? || pc.Marking? ==> h.value in s.writes)
    && (pc.Marking? ==> h.value in s.accounts)
    && (forall r :: r in s.accounts ==> r in s.writes)
    && (forall r :: r in s.marked ==> r in s.accounts)
  }

  ghost predicate Inv(s: State, h: Option<RequestId>) {
    Holds(s, h) && Counted(s, h)
  }

  function NextHolder(s: State, h: Option<RequestId>, e: Event): Option<RequestId> {
    if e.r in s.pcs && Critical(s.pcs[e.r]) then Some(e.r) else if h == Some(e.r) then None else h
  }

  /** One request moves: it may only be in the section if nobody else is, and the flag says whether anybody is. */
  lemma MoveKeepsHolder(s: State, h: Option<RequestId>, t: State, e: Event, pc: Pc)
    requires Holds(s, h) && t.pcs == s.pcs[e.r := pc]
    requires Critical(pc) ==> h.None? || h.value == e.r
    requires t.inProgress == (Critical(pc) || (h.Some? && h.value != e.r))
    ensures Holds(t, NextHolder(t, h, e))
  {
    hide Critical;
  }

  lemma StepKeepsHolder(s: State, h: Option<RequestId>, e: Event)
    requires Holds(s, h)
    ensures Holds(Step(s, e), NextHolder(Step(s, e), h, e))
  {
    var t := Step(s, e);
    if e.Begin? && e.r !in s.pcs {
      BeginMoves(s, h, e);
      MoveKeepsHolder(s, h, t, e, t.pcs[e.r]);
    } else if t != s {
      ResumeMoves(s, h, e);
      MoveKeepsHolder(s, h, t, e, t.pcs[e.r]);
    } else {
      hide Step;
    }
  }

  lemma BeginMoves(s: State, h: Option<RequestId>, e: Event)
    requires Holds(s, h) && e.Begin? && e.r !in s.pcs
    ensures var t := Step(s, e);
            && e.r in t.pcs && t.pcs == s.pcs[e.r := t.pcs[e.r]]
            && (Critical(t.pcs[e.r]) ==> h.None? || h.value == e.r)
            && t.inProgress == (Critical(t.pcs[e.r]) || (h.Some? && h.value != e.r))
  {
  }

  lemma ResumeMoves(s: State, h: Option<RequestId>, e: Event)
    requires Holds(s, h) && !e.Begin? && Step(s, e) != s
    ensures var t := Step(s, e);
            && e.r in t.pcs && t.pcs == s.pcs[e.r := t.pcs[e.r]]
            && (Critical(t.pcs[e.r]) ==> h.None? || h.value == e.r)
            && t.inProgress == (Critical(t.pcs[e.r]) || (h.Some? && h.value != e.r))
  {
    assert e.r in s.pcs && Critical(s.pcs[e.r]);
    assert h.Some? && h.value == e.r;
  }

  predicate Writes(e: Event) {
    e.Saved? || e.Created? || e.Marked?
  }

  lemma SavedKeepsCounts(s: State, h: Option<RequestId>, r: RequestId, write: Write)
    requires Inv(s, h) && At(s, r, Saving)
    ensures var after := Save(s, r, write); Counted(after, if write.Done? then h else None)
  {
    assert h == Some(r);
  }

  lemma CreatedKeepsCounts(s: State, h: Option<RequestId>, r: RequestId, write: Write)
    requires Inv(s, h) && At(s, r, Creating)
    ensures var after := Create(s, r, write); Counted(after, if write.Done? then h else None)
  {
    assert h == Some(r);
  }

  lemma MarkedKeepsCounts(s: State, h: Option<RequestId>, r: RequestId, write: Write)
    requires Inv(s, h) && At(s, r, Marking)
    ensures var after := Mark(s, r, write); Counted(after, if write.Done? then h else None)
  {
    assert h == Some(r);
  }

  lemma WriteKeepsCounts(s: State, h: Option<RequestId>, e: Event)
    requires Inv(s, h) && Writes(e) && Holds(Step(s, e), NextHolder(Step(s, e), h, e))
    ensures Counted(Step(s, e), NextHolder(Step(s, e), h, e))
  {
    hide Counted;
    if e.Saved? && At(s, e.r, Saving) { SavedKeepsCounts(s, h, e.r, e.write); }
    if e.Created? && At(s, e.r, Creating) { CreatedKeepsCounts(s, h, e.r, e.write); }
    if e.Marked? && At(s, e.r, Marking) { MarkedKeepsCounts(s, h, e.r, e.write); }
  }

  lemma BeginKeepsCounts(s: State, h: Option<RequestId>, e: Event)
    requires Inv(s, h) && e.Begin? && Holds(Step(s, e), NextHolder(Step(s, e), h, e))
    ensures Counted(Step(s, e), NextHolder(Step(s, e), h, e))
  {
  }

  lemma OtherKeepsCounts(s: State, h: Option<RequestId>, e: Event)
    requires Inv(s, h) && !e.Begin? && !Writes(e) && Holds(Step(s, e), NextHolder(Step(s, e), h, e))
    ensures Counted(Step(s, e), NextHolder(Step(s, e), h, e))
  {
  }

  lemma StepKeepsInv(s: State, h: Option<RequestId>, e: Event)
    requires Inv(s, h)
    ensures Inv(Step(s, e), NextHolder(Step(s, e), h, e))
  {
    StepKeepsHolder(s, h, e);
    hide Step, Counted, NextHolder;
    if Writes(e) {
      WriteKeepsCounts(s, h, e);
    } else if e.Begin? {
      BeginKeepsCounts(s, h, e);
    } else {
      OtherKeepsCounts(s, h, e);
    }
  }

  lemma {:induction false} RunKeepsInv(s: State, h: Option<RequestId>, es: seq<Event>) returns (end: Option<RequestId>)
    requires Inv(s, h)
    ensures Inv(Run(s, es), end)
    decreases |es|
  {
    hide Inv, Step, NextHolder;
    if es == [] {
      end := h;
    } else {
      StepKeepsInv(s, h, es[0]);
      end := RunKeepsInv(Step(s, es[0]), NextHolder(Step(s, es[0]), h, es[0]), es[1..]);
    }
  }

  /** `inProgress` is up exactly while one request is in the critical section, and there is never a second. */
  lemma SingleFlight(s: State, es: seq<Event>)
    requires Fresh(s)
    ensures var end := Run(s, es);
            && (forall a, b :: a in end.pcs && b in end.pcs && Critical(end.pcs[a]) && Critical(end.pcs[b]) ==> a == b)
            && (end.inProgress <==> exists r :: r in end.pcs && Critical(end.pcs[r]))
  {
    var h := RunKeepsInv(s, None, es);
    var end := Run(s, es);
    assert Inv(end, h);
    if h.Some? { assert h.value in end.pcs && Critical(end.pcs[h.value]); }
  }

  /**
   However completions interleave and fail, the config is written at most once more than an existing
   file was misread as absent; administrators are inserted, and marked, only by requests that wrote it.
   */
  lemma AtMostOneAdministrator(s: State, es: seq<Event>)
    requires Fresh(s)
    ensures var end := Run(s, es);
            && |end.marked| <= |end.accounts| <= |end.writes| <= 1 + end.misreads
            && (forall r :: r in end.marked ==> r in end.accounts)
            && (forall r :: r in end.accounts ==> r in end.writes)
  {
    var h := RunKeepsInv(s, None, es);
  }

  /** The check of an existing file never errs in this run. */
  predicate Honest(es: seq<Event>) {
    forall i :: 0 <= i < |es| && es[i].Checked? ==> !es[i].accessFails
  }

  lemma {:induction false} HonestRunMisreadsNothing(s: State, es: seq<Event>)
    requires Honest(es)
    ensures Run(s, es).misreads == s.misreads
    decreases |es|
  {
    if es != [] {
      hide Critical;
      assert Step(s, es[0]).misreads == s.misreads;
      HonestRunMisreadsNothing(Step(s, es[0]), es[1..]);
    }
  }

  /** With an honest file check: one config, one administrator, both by the same request. */
  lemma OneSetup(s: State, es: seq<Event>)
    requires Fresh(s) && Honest(es)
    ensures var end := Run(s, es);
            |end.writes| <= 1 && |end.accounts| <= 1 && |end.marked| <= 1 && end.accounts <= end.writes && end.marked <= end.accounts
  {
    AtMostOneAdministrator(s, es);
    HonestRunMisreadsNothing(s, es);
    var end := Run(s, es);
    if |end.accounts| == 1 { assert end.accounts[0] in end.accounts && end.accounts[0] == end.writes[0]; }
    if |end.marked| == 1 { assert end.marked[0] in end.marked && end.marked[0] == end.accounts[0]; }
  }

  // -- Why the honest check is needed, and what a late failure costs -----------------

  function OneCompletion(r: RequestId, token: string, newToken: string, misread: bool): seq<Event> {
    [Begin(r, Some(token), true), Checked(r, misread), Saved(r, Done), Connected(r, true), Created(r, Done), Marked(r, Done),
     Finished(r, true, newToken)]
  }

  /** One misread of the existing file is enough for a second initial administrator. */
  lemma MisreadMakesTwo(t0: string, t1: string, t2: string)
    ensures var s := State(false, Some(t0), false, false, map[], [], [], [], 0);
            var end := Run(Run(s, OneCompletion(1, t0, t1, false)), OneCompletion(2, t1, t2, true));
            Fresh(s) && end.marked == [1, 2] && end.misreads == 1
  {
    var s := State(false, Some(t0), false, false, map[], [], [], [], 0);
    Completion(s, 1, t0, t1, false);
    Completion(Run(s, OneCompletion(1, t0, t1, false)), 2, t1, t2, true);
  }

  lemma {:induction false} RunJoin(s: State, es: seq<Event>, fs: seq<Event>)
    ensures Run(s, es + fs) == Run(Run(s, es), fs)
    decreases |es|
  {
    if es == [] {
      assert es + fs == fs;
    } else {
      RunJoin(Step(s, es[0]), es[1..], fs);
      assert (es + fs)[1..] == es[1..] + fs;
    }
  }

  /** `n` completions one after the other, each with the token the one before left; all but the first misread the file. */
  function Setups(tokens: seq<string>, n: nat): seq<Event>
    requires n < |tokens|
  {
    if n == 0 then [] else Setups(tokens, n - 1) + OneCompletion(n, tokens[n - 1], tokens[n], n > 1)
  }

  /** Requests 1 to `n + 1` have completed, `n` of them on a misread; the process is ready for the next. */
  ghost predicate SetUpAgain(s: State, n: nat, token: string) {
    && s.misreads == n && |s.marked| == n + 1
    && !s.configured && s.token == Some(token) && !s.inProgress && s.file
    && forall r :: r in s.pcs ==> r <= n + 1
  }

  lemma OnceMore(s: State, n: nat, token: string, newToken: string)
    requires SetUpAgain(s, n, token)
    ensures SetUpAgain(Run(s, OneCompletion(n + 2, token, newToken, true)), n + 1, newToken)
  {
    hide Step, OneCompletion, Run;
    Completion(s, n + 2, token, newToken, true);
  }

  /** The bound of `AtMostOneAdministrator` is met for every number of misreads, whatever tokens are drawn. */
  lemma {:induction false} EveryMisreadMayAddOne(tokens: seq<string>, n: nat)
    requires n + 1 < |tokens|
    ensures var s := State(false, Some(tokens[0]), false, false, map[], [], [], [], 0);
            var end := Run(s, Setups(tokens, n + 1));
            && Fresh(s) && SetUpAgain(end, n, tokens[n + 1])
            && end.misreads == n && |end.marked| == |end.accounts| == |end.writes| == n + 1
    decreases n
  {
    var s := State(false, Some(tokens[0]), false, false, map[], [], [], [], 0);
    var es, last := Setups(tokens, n), OneCompletion(n + 1, tokens[n], tokens[n + 1], n > 0);
    RunJoin(s, es, last);
    if n == 0 {
      Completion(s, 1, tokens[0], tokens[1], false);
    } else {
      EveryMisreadMayAddOne(tokens, n - 1);
      AtMostOneAdministrator(s, es + last);
      hide Run, Step, OneCompletion;
      OnceMore(Run(s, es), n - 1, tokens[n], tokens[n + 1]);
    }
  }

  lemma Completion(s: State, r: RequestId, token: string, newToken: string, misread: bool)
    requires !s.configured && s.token == Some(token) && !s.inProgress && r !in s.pcs && (s.file ==> misread)
    ensures Run(s, OneCompletion(r, token, newToken, misread)) ==
            s.(token := Some(newToken), file := true, pcs := s.pcs[r := Succeeded], writes := s.writes + [r],
               accounts := s.accounts + [r], marked := s.marked + [r], misreads := s.misreads + One(s.file))
  {
    var es := OneCompletion(r, token, newToken, misread);
    SevenSteps(s, es);
    FirstSteps(s, r, token, misread);
    var saved := s.(inProgress := true, file := true, pcs := s.pcs[r := Connecting], writes := s.writes + [r],
                    misreads := s.misreads + One(s.file));
    LastSteps(saved, r, newToken);
    hide Step;
    assert saved.pcs[r := Succeeded] == s.pcs[r := Succeeded];
  }

  lemma FirstSteps(s: State, r: RequestId, token: string, misread: bool)
    requires !s.configured && s.token == Some(token) && !s.inProgress && r !in s.pcs && (s.file ==> misread)
    ensures Step(Step(Step(s, Begin(r, Some(token), true)), Checked(r, misread)), Saved(r, Done)) ==
            s.(inProgress := true, file := true, pcs := s.pcs[r := Connecting], writes := s.writes + [r],
               misreads := s.misreads + One(s.file))
  {
    var s1 := Step(s, Begin(r, Some(token), true));
    assert s1 == s.(inProgress := true, pcs := s.pcs[r := Checking]);
    var s2 := Step(s1, Checked(r, misread));
    assert s2.pcs == s.pcs[r := Saving];
    assert Step(s2, Saved(r, Done)).pcs == s.pcs[r := Connecting];
  }

  lemma LastSteps(s: State, r: RequestId, newToken: string)
    requires At(s, r, Connecting)
    ensures Step(Step(Step(Step(s, Connected(r, true)), Created(r, Done)), Marked(r, Done)), Finished(r, true, newToken)) ==
            s.(token := Some(newToken), inProgress := false, pcs := s.pcs[r := Succeeded],
               accounts := s.accounts + [r], marked := s.marked + [r])
  {
    var s1 := Step(s, Connected(r, true));
    assert s1 == Go(s, r, Creating);
    var s2 := Step(s1, Created(r, Done));
    assert s2.pcs == s.pcs[r := Marking];
    var s3 := Step(s2, Marked(r, Done));
    assert s3.pcs == s.pcs[r := Finishing];
    assert Step(s3, Finished(r, true, newToken)).pcs == s.pcs[r := Succeeded];
  }

  lemma SevenSteps(s: State, es: seq<Event>)
    requires |es| == 7
    ensures Run(s, es) == Step(Step(Step(Step(Step(Step(Step(s, es[0]), es[1]), es[2]), es[3]), es[4]), es[5]), es[6])
  {
    hide Step;
    assert es[1..][1..] == es[2..] && es[2..][1..] == es[3..] && es[3..][1..] == es[4..];
    assert es[4..][1..] == es[5..] && es[5..][1..] == es[6..] && es[6..][1..] == [];
    var s1 := Step(s, es[0]);
    assert Run(s, es) == Run(s1, es[1..]);
    var s2 := Step(s1, es[1]);
    assert Run(s1, es[1..]) == Run(s2, es[2..]);
    var s3 := Step(s2, es[2]);
    assert Run(s2, es[2..]) == Run(s3, es[3..]);
    var s4 := Step(s3, es[3]);
    assert Run(s3, es[3..]) == Run(s4, es[4..]);
    var s5 := Step(s4, es[4]);
    assert Run(s4, es[4..]) == Run(s5, es[5..]);
    var s6 := Step(s5, es[5]);
    assert Run(s5, es[5..]) == Run(s6, es[6..]);
    assert Run(s6, es[6..]) == Run(Step(s6, es[6]), []);
  }

  /** Past the file check nobody is under way, or only requests that will be turned back there. */
  ghost predicate Shut(s: State) {
    s.file && forall r :: r in s.pcs && Critical(s.pcs[r]) ==> s.pcs[r].Checking?
  }

  /**
   Once the file is there and its writer is gone, however it went, no honest run ever writes, inserts
   or marks again: a completion that fails after saving leaves an instance the wizard cannot finish.
   */
  lemma {:induction false} SavedSetupIsShut(s: State, es: seq<Event>)
    requires Shut(s) && Honest(es)
    ensures var end := Run(s, es);
            Shut(end) && end.writes == s.writes && end.accounts == s.accounts && end.marked == s.marked
    decreases |es|
  {
    if es != [] {
      ShutStep(s, es[0]);
      hide Step, Shut;
      SavedSetupIsShut(Step(s, es[0]), es[1..]);
    }
  }

  lemma ShutStep(s: State, e: Event)
    requires Shut(s) && (e.Checked? ==> !e.accessFails)
    ensures var t := Step(s, e); Shut(t) && t.writes == s.writes && t.accounts == s.accounts && t.marked == s.marked
  {
  }

  // -- Who gets in ----------------------------------------------------------------------

  /**
   A completion request is answered 403 once configured, 401 without the token in force, a missing token
   included, 409 while another is under way and 400 for a bad body, and changes nothing then; otherwise it
   enters the critical section.
   */
  lemma BeginAnswers(s: State, r: RequestId, provided: Option<string>, bodyOk: bool)
    requires r !in s.pcs
    ensures var t := Step(s, Begin(r, provided, bodyOk));
            if s.configured then t == s.(pcs := s.pcs[r := Ended(Forbidden)])
            else if provided == None || provided != s.token then t == s.(pcs := s.pcs[r := Ended(Unauthorized)])
            else if s.inProgress then t == s.(pcs := s.pcs[r := Ended(Conflict)])
            else if !bodyOk then t == s.(pcs := s.pcs[r := Ended(Validation)])
            else t == s.(pcs := s.pcs[r := Checking], inProgress := true)
  {
  }

  /** The request has a stake in the outcome: it is in the critical section, or has written, inserted or marked. */
  predicate Involved(s: State, r: RequestId) {
    || (r in s.pcs && !s.pcs[r].Succeeded? && !s.pcs[r].Ended?)
    || r in s.writes || r in s.accounts || r in s.marked
  }

  /** Where the request must stand for the stretch to run. */
  predicate InPlace(s: State, e: Event) {
    match e
    case Begin(r, _, _) => r !in s.pcs
    case Checked(r, _) => At(s, r, Checking)
    case Saved(r, _) => At(s, r, Saving)
    case Connected(r, _) => At(s, r, Connecting)
    case Created(r, _) => At(s, r, Creating)
    case Marked(r, _) => At(s, r, Marking)
    case Finished(r, _, _) => At(s, r, Finishing)
  }

  lemma OutOfPlace(s: State, e: Event)
    requires !InPlace(s, e)
    ensures Step(s, e) == s
  {
  }

  lemma ResumeInvolvesNobody(s: State, e: Event, r: RequestId)
    requires !e.Begin? && Involved(Step(s, e), r)
    ensures Involved(s, r)
  {
    hide Step;
    if !InPlace(s, e) {
      OutOfPlace(s, e);
    } else {
      match e
      case Checked(x, fails) => CheckDecides(s, x, fails);
      case Saved(x, write) => StretchWrites(s, x, write, true, "");
      case Connected(x, ok) => StretchWrites(s, x, Done, ok, "");
      case Created(x, write) => StretchWrites(s, x, write, true, "");
      case Marked(x, write) => StretchWrites(s, x, write, true, "");
      case Finished(x, ok, newToken) => StretchWrites(s, x, Done, ok, newToken);
    }
  }

  lemma InvolvedBegan(s: State, e: Event, r: RequestId)
    requires Involved(Step(s, e), r) && !Involved(s, r)
    ensures e.Begin? && e.r == r && e.provided.Some? && e.provided == s.token && !s.configured
  {
    hide Step;
    if !e.Begin? { ResumeInvolvesNobody(s, e, r); }
    if InPlace(s, e) { BeginAnswers(s, e.r, e.provided, e.bodyOk); } else { OutOfPlace(s, e); }
  }

  lemma EmptyPrefix(s: State, es: seq<Event>)
    ensures Run(s, es[..0]) == s
  {
    assert es[..0] == [];
  }

  /** One of the first `n` events began the request with the token in force at that moment. */
  ghost predicate BeganWithToken(s: State, es: seq<Event>, n: nat, r: RequestId)
    requires n <= |es|
  {
    exists i :: 0 <= i < n && es[i].Begin? && es[i].r == r && es[i].provided.Some? &&
      es[i].provided == Run(s, es[..i]).token && !Run(s, es[..i]).configured
  }

  lemma {:induction false} InvolvedHadToken(s: State, es: seq<Event>, n: nat, r: RequestId)
    requires Fresh(s) && n <= |es| && Involved(Run(s, es[..n]), r)
    ensures BeganWithToken(s, es, n, r)
    decreases n
  {
    EmptyPrefix(s, es);
    if n > 0 {
      var before := Run(s, es[..n - 1]);
      RunJoin(s, es[..n - 1], [es[n - 1]]);
      assert es[..n - 1] + [es[n - 1]] == es[..n];
      assert Run(before, [es[n - 1]]) == Step(before, es[n - 1]) by { assert Run(Step(before, es[n - 1]), []) == Step(before, es[n - 1]); }
      hide Step, Run, Involved;
      if Involved(before, r) { InvolvedHadToken(s, es, n - 1, r); } else { InvolvedBegan(before, es[n - 1], r); }
    }
  }

  /** Over every run, whoever writes the config, inserts or marks an administrator began with exactly the token in force. */
  lemma OnlyTheTokenSetsUp(s: State, es: seq<Event>, r: RequestId)
    requires Fresh(s)
    requires var end := Run(s, es); r in end.writes || r in end.accounts || r in end.marked
    ensures BeganWithToken(s, es, |es|, r)
  {
    assert es[..|es|] == es;
    hide Step;
    InvolvedHadToken(s, es, |es|, r);
  }

  /** What the later stretches write, and where they lead: a write that took effect is there even if it failed afterwards. */
  lemma StretchWrites(s: State, r: RequestId, write: Write, ok: bool, newToken: string)
    ensures At(s, r, Saving) ==>
            var t := Step(s, Saved(r, write));
            && t.file == (s.file || write != NotDone) && t.writes == s.writes + (if write == NotDone then [] else [r])
            && t.pcs == s.pcs[r := if write == Done then Connecting else Ended(Failed)] && t.inProgress == (s.inProgress && write == Done)
            && t == s.(file := t.file, writes := t.writes, pcs := t.pcs, inProgress := t.inProgress)
    ensures At(s, r, Creating) ==>
            var t := Step(s, Created(r, write));
            && t.accounts == s.accounts + (if write == NotDone then [] else [r])
            && t.pcs == s.pcs[r := if write == Done then Marking else Ended(Failed)] && t.inProgress == (s.inProgress && write == Done)
            && t == s.(accounts := t.accounts, pcs := t.pcs, inProgress := t.inProgress)
    ensures At(s, r, Marking) ==>
            var t := Step(s, Marked(r, write));
            && t.marked == s.marked + (if write == NotDone then [] else [r])
            && t.pcs == s.pcs[r := if write == Done then Finishing else Ended(Failed)] && t.inProgress == (s.inProgress && write == Done)
            && t == s.(marked := t.marked, pcs := t.pcs, inProgress := t.inProgress)
    ensures At(s, r, Connecting) ==>
            Step(s, Connected(r, ok)) == s.(pcs := s.pcs[r := if ok then Creating else Ended(Failed)], inProgress := s.inProgress && ok)
    ensures At(s, r, Finishing) ==>
            Step(s, Finished(r, ok, newToken)) ==
              s.(token := if ok then Some(newToken) else s.token, pcs := s.pcs[r := if ok then Succeeded else Ended(Failed)], inProgress := false)
  {
  }

  /** A file that is there and read as such ends the request with 409; else it goes on to saving. */
  lemma CheckDecides(s: State, r: RequestId, accessFails: bool)
    requires At(s, r, Checking)
    ensures var t := Step(s, Checked(r, accessFails));
            if s.file && !accessFails then t == s.(pcs := s.pcs[r := Ended(Conflict)], inProgress := false)
            else t == s.(pcs := s.pcs[r := Saving], misreads := s.misreads + if s.file then 1 else 0)
  {
  }

  // -- The token -------------------------------------------------------------------

  /** No completion of the run happens to draw `t` again. */
  predicate NeverDrawn(es: seq<Event>, t: string) {
    forall i :: 0 <= i < |es| && es[i].Finished? ==> es[i].newToken != t
  }

  lemma {:induction false} TokenStaysDead(s: State, es: seq<Event>, t: string)
    requires s.token != Some(t) && NeverDrawn(es, t)
    ensures !Authorised(Run(s, es), Some(t))
    decreases |es|
  {
    if es != [] {
      hide Critical;
      assert Step(s, es[0]).token != Some(t);
      TokenStaysDead(Step(s, es[0]), es[1..], t);
    }
  }

  /** After a successful completion the token it was made with opens nothing, in every continuation. */
  lemma TokenDies(s: State, r: RequestId, newToken: string, t: string, es: seq<Event>, r2: RequestId, bodyOk: bool)
    requires At(s, r, Finishing) && newToken != t && NeverDrawn(es, t)
    ensures var end := Run(Step(s, Finished(r, true, newToken)), es);
            r2 !in end.pcs && !end.configured ==> Step(end, Begin(r2, Some(t), bodyOk)) == end.(pcs := end.pcs[r2 := Ended(Unauthorized)])
  {
    TokenStaysDead(Step(s, Finished(r, true, newToken)), es, t);
  }

  // -- The module itself --------------------------------------------------------------

  /** `setup.ts`: two module variables, the world they guard, and one method per uninterrupted stretch. */
  class SetupRoutes {
    const configured: bool
    var setupToken: Option<string>
    var setupInProgress: bool
    var file: bool
    var pcs: map<RequestId, Pc>
    ghost var writes: seq<RequestId>
    ghost var accounts: seq<RequestId>
    ghost var marked: seq<RequestId>
    ghost var misreads: nat

    ghost function View(): State
      reads this
    {
      State(configured, setupToken, setupInProgress, file, pcs, writes, accounts, marked, misreads)
    }

    constructor (configured: bool, random: string, fileThere: bool)
      ensures Fresh(View()) && this.configured == configured && file == fileThere
      ensures !configured ==> setupToken == Some(random)
    {
      this.configured := configured;
      setupToken := if configured then None else Some(random);
      setupInProgress, file, pcs := false, fileThere, map[];
      writes, accounts, marked, misreads := [], [], [], 0;
    }

    method Fail(r: RequestId, why: Refusal)
      modifies `pcs, `setupInProgress
      ensures View() == Leave(old(View()), r, Ended(why))
    {
      pcs := pcs[r := Ended(why)];
      setupInProgress := false;
    }

    method BeginRequest(r: RequestId, provided: Option<string>, bodyOk: bool)
      requires r !in pcs
      modifies `pcs, `setupInProgress
      ensures View() == Step(old(View()), Begin(r, provided, bodyOk))
    {
      if configured {
        pcs := pcs[r := Ended(Forbidden)];
      } else if provided.None? || setupToken != provided {
        pcs := pcs[r := Ended(Unauthorized)];
      } else if setupInProgress {
        pcs := pcs[r := Ended(Conflict)];
      } else {
        setupInProgress := true;
        if !bodyOk {
          Fail(r, Validation);
        } else {
          pcs := pcs[r := Checking];
        }
      }
    }

    method ResumeChecked(r: RequestId, accessFails: bool)
      requires r in pcs && pcs[r] == Checking
      modifies `pcs, `setupInProgress, `misreads
      ensures View() == Step(old(View()), Checked(r, accessFails))
    {
      var found := file && !accessFails;
      if found {
        Fail(r, Conflict);
      } else {
        if file { misreads := misreads + 1; }
        pcs := pcs[r := Saving];
      }
    }

    method ResumeSaved(r: RequestId, write: Write)
      requires r in pcs && pcs[r] == Saving
      modifies `file, `writes, `pcs, `setupInProgress
      ensures View() == Step(old(View()), Saved(r, write))
    {
      if Happened(write) { file := true; writes := writes + [r]; }
      if write.Done? { pcs := pcs[r := Connecting]; } else { Fail(r, Failed); }
    }

    method ResumeConnected(r: RequestId, ok: bool)
      requires r in pcs && pcs[r] == Connecting
      modifies `pcs, `setupInProgress
      ensures View() == Step(old(View()), Connected(r, ok))
    {
      if ok { pcs := pcs[r := Creating]; } else { Fail(r, Failed); }
    }

    method ResumeCreated(r: RequestId, write: Write)
      requires r in pcs && pcs[r] == Creating
      modifies `accounts, `pcs, `setupInProgress
      ensures View() == Step(old(View()), Created(r, write))
    {
      if Happened(write) { accounts := accounts + [r]; }
      if write.Done? { pcs := pcs[r := Marking]; } else { Fail(r, Failed); }
    }

    method ResumeMarked(r: RequestId, write: Write)
      requires r in pcs && pcs[r] == Marking
      modifies `marked, `pcs, `setupInProgress
      ensures View() == Step(old(View()), Marked(r, write))
    {
      if Happened(write) { marked := marked + [r]; }
      if write.Done? { pcs := pcs[r := Finishing]; } else { Fail(r, Failed); }
    }

    method ResumeFinished(r: RequestId, ok: bool, random: string)
      requires r in pcs && pcs[r] == Finishing
      modifies `setupToken, `pcs, `setupInProgress
      ensures View() == Step(old(View()), Finished(r, ok, random))
    {
      if !ok {
        Fail(r, Failed);
      } else {
        setupToken := Some(random);
        pcs := pcs[r := Succeeded];
        setupInProgress := false;
      }
    }
  }
}
