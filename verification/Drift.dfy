/** One drift pass at a time: a module flag in front of an asynchronous pass that may throw. */
module Drift {
  import opened Common

  datatype CallerId = Ticker(n: nat) | Manual(n: nat)

  /** What became of a call of `runDriftPassExclusive`. */
  datatype Fate = Running | Returned | Threw | GotNull

  datatype State = State(inFlight: bool, fates: map<CallerId, Fate>)

  /** A ticker or manual call, and the end of its pass. */
  datatype Event = Call(id: CallerId) | PassEnds(id: CallerId, throws: bool)

  const FRESH := State(false, map[])

  function Step(s: State, e: Event): State {
    match e
    case Call(id) =>
      if id in s.fates then s
      else if s.inFlight then s.(fates := s.fates[id := GotNull])
      else State(true, s.fates[id := Running])
    case PassEnds(id, throws) =>
      if id in s.fates && s.fates[id].Running? then State(false, s.fates[id := if throws then Threw else Returned]) else s
  }

  function Run(s: State, es: seq<Event>): State
    decreases |es|
  {
    if es == [] then s else Run(Step(s, es[0]), es[1..])
  }

  predicate IsRunning(s: State, id: CallerId) {
    id in s.fates && s.fates[id].Running?
  }

  /** The flag is up exactly when a pass is running, and at most one is. */
  ghost predicate Exclusive(s: State) {
    && (s.inFlight <==> exists id :: IsRunning(s, id))
    && (forall a, b :: IsRunning(s, a) && IsRunning(s, b) ==> a == b)
  }

  lemma StepKeepsExclusive(s: State, e: Event)
    requires Exclusive(s)
    ensures Exclusive(Step(s, e))
  {
    var t := Step(s, e);
    match e
    case Call(id) =>
      if s.inFlight {
        var other :| IsRunning(s, other);
        assert IsRunning(t, other);
        forall x | IsRunning(t, x) ensures IsRunning(s, x) {}
      } else if id !in s.fates {
        assert IsRunning(t, id);
        forall x | IsRunning(t, x) ensures x == id { assert !IsRunning(s, x); }
      }
    case PassEnds(id, _) =>
      if IsRunning(s, id) {
        forall x ensures !IsRunning(t, x) { assert IsRunning(s, x) ==> x == id; }
      }
  }

  lemma {:induction false} RunKeepsExclusive(s: State, es: seq<Event>)
    requires Exclusive(s)
    ensures Exclusive(Run(s, es))
    decreases |es|
  {
    hide Exclusive, Step;
    if es != [] {
      StepKeepsExclusive(s, es[0]);
      RunKeepsExclusive(Step(s, es[0]), es[1..]);
    }
  }

  lemma FreshIsExclusive()
    ensures Exclusive(FRESH)
  {
  }

  /** After any history a new call gets null exactly when another pass is running, and otherwise starts one. */
  lemma NullIffAnotherRuns(es: seq<Event>, id: CallerId)
    requires id !in Run(FRESH, es).fates
    ensures var s := Run(FRESH, es);
            var t := Step(s, Call(id));
            && (t.fates[id].GotNull? <==> exists other :: IsRunning(s, other))
            && (t.fates[id].Running? <==> !exists other :: IsRunning(s, other))
  {
    FreshIsExclusive();
    RunKeepsExclusive(FRESH, es);
  }

  /** However a pass ends, the very next caller starts one. */
  lemma NextCallerStarts(es: seq<Event>, id: CallerId, throws: bool, next: CallerId)
    requires IsRunning(Run(FRESH, es), id) && next !in Run(FRESH, es).fates
    ensures var ended := Step(Run(FRESH, es), PassEnds(id, throws));
            !ended.inFlight && IsRunning(Step(ended, Call(next)), next)
  {
  }

  // -- Against a reading of the history that has no flag ----------------------------------

  /** The passes of a history that were started and have not ended. */
  function Open(es: seq<Event>): set<CallerId>
    decreases |es|
  {
    if es == [] then {}
    else
      var open, e := Open(es[..|es| - 1]), es[|es| - 1];
      if e.PassEnds? then open - {e.id}
      else if open == {} && e.id !in Seen(es[..|es| - 1]) then {e.id}
      else open
  }

  function Seen(es: seq<Event>): set<CallerId> {
    set e | e in es && e.Call? :: e.id
  }

  lemma {:induction false} RunSnoc(s: State, es: seq<Event>, e: Event)
    ensures Run(s, es + [e]) == Step(Run(s, es), e)
    decreases |es|
  {
    if es == [] {
      assert Run(s, [e]) == Run(Step(s, e), []);
    } else {
      assert (es + [e])[1..] == es[1..] + [e];
      RunSnoc(Step(s, es[0]), es[1..], e);
    }
  }

  lemma {:induction false} HistoryMatches(es: seq<Event>)
    ensures var s := Run(FRESH, es);
            && s.fates.Keys == Seen(es)
            && (forall id :: IsRunning(s, id) <==> id in Open(es))
            && (s.inFlight <==> Open(es) != {})
    decreases |es|
  {
    if es != [] {
      var front, e := es[..|es| - 1], es[|es| - 1];
      HistoryMatches(front);
      assert es == front + [e];
      RunSnoc(FRESH, front, e);
      FreshIsExclusive();
      RunKeepsExclusive(FRESH, front);
      SeenSnoc(front, e);
      OpenStep(Run(FRESH, front), Open(front), Seen(front), e);
    }
  }

  lemma OpenStep(s: State, open: set<CallerId>, seen: set<CallerId>, e: Event)
    requires Exclusive(s) && s.fates.Keys == seen && (forall id :: IsRunning(s, id) <==> id in open)
    ensures var t := Step(s, e);
            var next := if e.PassEnds? then open - {e.id} else if open == {} && e.id !in seen then {e.id} else open;
            && (forall id :: IsRunning(t, id) <==> id in next)
            && (t.inFlight <==> next != {})
  {
    StepKeepsExclusive(s, e);
    var t := Step(s, e);
    var next := if e.PassEnds? then open - {e.id} else if open == {} && e.id !in seen then {e.id} else open;
    if s.inFlight {
      var other :| IsRunning(s, other);
      assert other in open;
    }
    forall id ensures IsRunning(t, id) <==> id in next { assert IsRunning(s, id) <==> id in open; }
    if t.inFlight {
      var other :| IsRunning(t, other);
      assert other in next;
    }
  }

  lemma SeenSnoc(es: seq<Event>, e: Event)
    ensures Seen(es + [e]) == Seen(es) + (if e.Call? then {e.id} else {})
  {
  }

  /** The module: one flag, tested and set before the pass, cleared in `finally`. */
  class DriftRoutes {
    var driftPassInFlight: bool
    ghost var fates: map<CallerId, Fate>

    ghost function View(): State
      reads this
    {
      State(driftPassInFlight, fates)
    }

    constructor ()
      ensures View() == FRESH
    {
      driftPassInFlight, fates := false, map[];
    }

    /** Up to the await: null at once, or the pass is under way. */
    method RunDriftPassExclusive(id: CallerId) returns (isNull: bool)
      requires id !in fates && Exclusive(View())
      modifies this
      ensures View() == Step(old(View()), Call(id)) && Exclusive(View())
      ensures isNull <==> exists other :: IsRunning(old(View()), other)
      ensures fates == old(fates)[id := if isNull then GotNull else Running]
    {
      StepKeepsExclusive(View(), Call(id));
      if driftPassInFlight {
        fates := fates[id := GotNull];
        return true;
      }
      driftPassInFlight := true;
      fates := fates[id := Running];
      return false;
    }

    method Settle(id: CallerId, throws: bool)
      requires IsRunning(View(), id) && Exclusive(View())
      modifies this
      ensures View() == Step(old(View()), PassEnds(id, throws)) && Exclusive(View())
      ensures !exists other :: IsRunning(View(), other)
      ensures fates == old(fates)[id := if throws then Threw else Returned]
    {
      StepKeepsExclusive(View(), PassEnds(id, throws));
      fates := fates[id := if throws then Threw else Returned];
      driftPassInFlight := false;
    }
  }
}
