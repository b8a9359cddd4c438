/** Infrastructure alerts as the edges of a sequence of health passes. */
module Alerts {
  import opened Common
  import opened Filtering

  datatype Status = ONLINE | ERROR | UNCONFIGURED

  datatype Result = Result(name: string, status: Status)

  datatype Alert = Down(name: string) | Recovered(name: string)

  type Pass = seq<Result>

  type Snapshot = map<string, Status>

  predicate UniqueNames(pass: Pass) {
    forall i, j :: 0 <= i < j < |pass| ==> pass[i].name != pass[j].name
  }

  /** What a pass stores: the last status of each name. */
  function Stored(pass: Pass): Snapshot
    decreases |pass|
  {
    if pass == [] then map[] else Stored(pass[..|pass| - 1])[pass[|pass| - 1].name := pass[|pass| - 1].status]
  }

  /** The status a pass gives a check, if the pass has it. */
  function Seen(pass: Pass, name: string): Option<Status>
    decreases |pass|
  {
    if pass == [] then None
    else if pass[|pass| - 1].name == name then Some(pass[|pass| - 1].status)
    else Seen(pass[..|pass| - 1], name)
  }

  lemma {:induction false} SeenAt(pass: Pass, i: nat)
    requires UniqueNames(pass) && i < |pass|
    ensures Seen(pass, pass[i].name) == Some(pass[i].status)
    decreases |pass|
  {
    if i < |pass| - 1 { SeenAt(pass[..|pass| - 1], i); }
  }

  lemma {:induction false} SeenSomewhere(pass: Pass, name: string) returns (i: nat)
    requires Seen(pass, name).Some?
    ensures i < |pass| && pass[i] == Result(name, Seen(pass, name).value)
    decreases |pass|
  {
    i := |pass| - 1;
    if pass[i].name != name { i := SeenSomewhere(pass[..i], name); }
  }

  lemma {:induction false} StoredIsSeen(pass: Pass, name: string)
    ensures Seen(pass, name) == if name in Stored(pass) then Some(Stored(pass)[name]) else None
    decreases |pass|
  {
    if pass != [] { StoredIsSeen(pass[..|pass| - 1], name); }
  }

  /** The alert for one name between what was stored and what is seen now. */
  function Edge(prev: Option<Snapshot>, r: Result): Option<Alert> {
    if prev.None? || r.name !in prev.value || prev.value[r.name] == r.status then None
    else if r.status == ERROR then Some(Down(r.name))
    else Some(Recovered(r.name))
  }

  function Edges(prev: Option<Snapshot>, pass: Pass): seq<Alert>
    decreases |pass|
  {
    if pass == [] then []
    else
      var last := Edge(prev, pass[|pass| - 1]);
      Edges(prev, pass[..|pass| - 1]) + if last.Some? then [last.value] else []
  }

  predicate Changed(prev: Option<Snapshot>, r: Result) {
    prev.Some? && r.name in prev.value && prev.value[r.name] != r.status
  }

  /** One alert for every changed check, in the order of the pass, and none besides. */
  lemma {:induction false} EdgesInOrder(prev: Option<Snapshot>, pass: Pass)
    ensures var changed := Kept(pass, r => Changed(prev, r));
            && |Edges(prev, pass)| == |changed|
            && forall i :: 0 <= i < |changed| ==>
                 Edges(prev, pass)[i] == if changed[i].status == ERROR then Down(changed[i].name) else Recovered(changed[i].name)
    decreases |pass|
  {
    if pass != [] { EdgesInOrder(prev, pass[..|pass| - 1]); }
  }

  lemma {:induction false} NoBaselineNoEdges(pass: Pass)
    ensures Edges(None, pass) == []
    decreases |pass|
  {
    if pass != [] { NoBaselineNoEdges(pass[..|pass| - 1]); }
  }

  // -- A whole run with a reliable store --------------------------------------------------

  /** The alerts of the `i`th pass of a run in which every pass reads and writes the snapshot. */
  function AlertsAt(passes: seq<Pass>, i: nat): seq<Alert>
    requires i < |passes|
  {
    Edges(if i == 0 then None else Some(Stored(passes[i - 1])), passes[i])
  }

  lemma {:induction false} EdgeIsSent(prev: Option<Snapshot>, pass: Pass, i: nat)
    requires i < |pass| && Edge(prev, pass[i]).Some?
    ensures Edge(prev, pass[i]).value in Edges(prev, pass)
    decreases |pass|
  {
    if i < |pass| - 1 { EdgeIsSent(prev, pass[..|pass| - 1], i); }
  }

  lemma {:induction false} SentIsEdge(prev: Option<Snapshot>, pass: Pass, a: Alert) returns (i: nat)
    requires a in Edges(prev, pass)
    ensures i < |pass| && Edge(prev, pass[i]) == Some(a)
    decreases |pass|
  {
    i := |pass| - 1;
    if Edge(prev, pass[i]) != Some(a) { i := SentIsEdge(prev, pass[..i], a); }
  }

  /** What the alert for a check should be, from what two adjacent passes show. */
  function Change(before: Option<Status>, now: Option<Status>, name: string): Option<Alert> {
    if before.None? || now.None? || before == now then None
    else if now == Some(ERROR) then Some(Down(name)) else Some(Recovered(name))
  }

  /**
   The alerts for a check are the changes between adjacent passes that both have it: DOWN for a
   change to ERROR, a recovery for any other, nothing on the first pass.
   */
  lemma AlertsAreEdges(passes: seq<Pass>, i: nat, name: string, a: Alert)
    requires i < |passes| && UniqueNames(passes[i]) && a.name == name
    ensures a in AlertsAt(passes, i) <==>
              i > 0 && Change(Seen(passes[i - 1], name), Seen(passes[i], name), name) == Some(a)
  {
    var prev := if i == 0 then None else Some(Stored(passes[i - 1]));
    if i > 0 { StoredIsSeen(passes[i - 1], name); }
    if a in Edges(prev, passes[i]) {
      var k := SentIsEdge(prev, passes[i], a);
      SeenAt(passes[i], k);
    }
    if Seen(passes[i], name).Some? {
      var k := SeenSomewhere(passes[i], name);
      if Edge(prev, passes[i][k]).Some? { EdgeIsSent(prev, passes[i], k); }
    }
  }

  // -- Alternation ----------------------------------------------------------------------------

  /** The kinds of alert for one name over the first `n` passes: true for DOWN. */
  function Kinds(statuses: seq<Status>, n: nat): seq<bool>
    requires n <= |statuses|
  {
    if n <= 1 then []
    else if statuses[n - 1] == statuses[n - 2] then Kinds(statuses, n - 1)
    else Kinds(statuses, n - 1) + [statuses[n - 1] == ERROR]
  }

  /** For a check that is always there and only ONLINE or ERROR, DOWN and recovery strictly alternate, and the last one tells its state. */
  lemma {:induction false} AlertsAlternate(statuses: seq<Status>, n: nat)
    requires 0 < n <= |statuses| && forall i :: 0 <= i < |statuses| ==> statuses[i] != UNCONFIGURED
    ensures var ks := Kinds(statuses, n);
            && (forall k :: 0 <= k < |ks| - 1 ==> ks[k] != ks[k + 1])
            && (if ks == [] then statuses[n - 1] == statuses[0] else ks[|ks| - 1] == (statuses[n - 1] == ERROR))
            && (ks != [] ==> ks[0] == (statuses[0] == ONLINE))
    decreases n
  {
    if n > 1 { AlertsAlternate(statuses, n - 1); }
  }

  /** The `i`th status of an always-present check contributes to `Kinds` exactly what the run alerts for it. */
  lemma KindsAreAlerts(passes: seq<Pass>, name: string, statuses: seq<Status>, i: nat)
    requires |statuses| == |passes| && 0 < i < |passes| && UniqueNames(passes[i])
    requires Seen(passes[i - 1], name) == Some(statuses[i - 1]) && Seen(passes[i], name) == Some(statuses[i])
    ensures Kinds(statuses, i + 1) == Kinds(statuses, i) +
              if Down(name) in AlertsAt(passes, i) then [true] else if Recovered(name) in AlertsAt(passes, i) then [false] else []
  {
    AlertsAreEdges(passes, i, name, Down(name));
    AlertsAreEdges(passes, i, name, Recovered(name));
  }

  // -- Runs in which the store may fail ---------------------------------------------------------

  datatype Tick = Tick(pass: Pass, readFails: bool, writeFails: bool)

  function Passes(ticks: seq<Tick>): seq<Pass> {
    seq(|ticks|, k requires 0 <= k < |ticks| => ticks[k].pass)
  }

  /** The snapshot left by a run. */
  function Left(ticks: seq<Tick>): Option<Snapshot>
    decreases |ticks|
  {
    if ticks == [] then None
    else if ticks[|ticks| - 1].writeFails then Left(ticks[..|ticks| - 1])
    else Some(Stored(ticks[|ticks| - 1].pass))
  }

  function Sent(ticks: seq<Tick>, i: nat): seq<Alert>
    requires i < |ticks|
  {
    Edges(if ticks[i].readFails then None else Left(ticks[..i]), ticks[i].pass)
  }

  /** With a reliable store the run sends exactly the edges of adjacent passes. */
  lemma ReliableRunSendsEdges(ticks: seq<Tick>, i: nat)
    requires i < |ticks| && forall k :: 0 <= k < |ticks| ==> !ticks[k].readFails && !ticks[k].writeFails
    ensures Sent(ticks, i) == AlertsAt(Passes(ticks), i)
  {
    if i > 0 { assert ticks[..i][|ticks[..i]| - 1] == ticks[i - 1]; }
  }

  /** A lost write makes the next pass compare with the older snapshot: an unchanged outage is announced again. */
  lemma LostWriteRepeats(ticks: seq<Tick>, i: nat)
    requires i + 1 < |ticks| && ticks[i].writeFails && !ticks[i].readFails && !ticks[i + 1].readFails
    requires ticks[i + 1].pass == ticks[i].pass
    ensures Sent(ticks, i + 1) == Sent(ticks, i)
  {
    assert ticks[..i + 1][..i] == ticks[..i];
  }

  // -- Exactly when failures do no harm --------------------------------------------------------

  /** The last pass before the `i`th that got its snapshot written. */
  function LastWritten(ticks: seq<Tick>, i: nat): (j: Option<nat>)
    requires i <= |ticks|
    ensures j.Some? ==> j.value < i
  {
    if i == 0 then None else if ticks[i - 1].writeFails then LastWritten(ticks, i - 1) else Some(i - 1)
  }

  /** Pass `base` has the check with another status. */
  predicate News(ticks: seq<Tick>, base: Option<nat>, r: Result)
    requires base.Some? ==> base.value < |ticks|
  {
    base.Some? && Seen(ticks[base.value].pass, r.name).Some? && Seen(ticks[base.value].pass, r.name) != Some(r.status)
  }

  /** Each check is news against the snapshot the pass gets to read exactly if it is news against the pass before. */
  ghost predicate ComparesRightly(ticks: seq<Tick>, i: nat)
    requires i < |ticks|
  {
    var read := if ticks[i].readFails then None else LastWritten(ticks, i);
    var before := if i == 0 then None else Some(i - 1);
    forall k :: 0 <= k < |ticks[i].pass| ==> (News(ticks, read, ticks[i].pass[k]) <==> News(ticks, before, ticks[i].pass[k]))
  }

  function SnapshotOf(ticks: seq<Tick>, base: Option<nat>): Option<Snapshot>
    requires base.Some? ==> base.value < |ticks|
  {
    if base.Some? then Some(Stored(ticks[base.value].pass)) else None
  }

  lemma {:induction false} LeftIsLastWritten(ticks: seq<Tick>, i: nat)
    requires i <= |ticks|
    ensures Left(ticks[..i]) == SnapshotOf(ticks, LastWritten(ticks, i))
    decreases i
  {
    if i > 0 {
      LeftIsLastWritten(ticks, i - 1);
      assert ticks[..i][..i - 1] == ticks[..i - 1];
    }
  }

  lemma NewsIsEdge(ticks: seq<Tick>, base: Option<nat>, r: Result)
    requires base.Some? ==> base.value < |ticks|
    ensures Edge(SnapshotOf(ticks, base), r) ==
            if !News(ticks, base, r) then None else if r.status == ERROR then Some(Down(r.name)) else Some(Recovered(r.name))
  {
    if base.Some? { StoredIsSeen(ticks[base.value].pass, r.name); }
  }

  lemma {:induction false} SameEdges(p: Option<Snapshot>, q: Option<Snapshot>, pass: Pass)
    requires forall k :: 0 <= k < |pass| ==> Edge(p, pass[k]) == Edge(q, pass[k])
    ensures Edges(p, pass) == Edges(q, pass)
    decreases |pass|
  {
    if pass != [] {
      hide Edge;
      SameEdges(p, q, pass[..|pass| - 1]);
    }
  }

  lemma SentOnBoth(p: Option<Snapshot>, q: Option<Snapshot>, pass: Pass, k: nat)
    requires UniqueNames(pass) && k < |pass| && Edges(p, pass) == Edges(q, pass) && Edge(p, pass[k]).Some?
    ensures Edge(q, pass[k]) == Edge(p, pass[k])
  {
    EdgeIsSent(p, pass, k);
    var i := SentIsEdge(q, pass, Edge(p, pass[k]).value);
    hide Edges;
    assert pass[i].name == pass[k].name;
  }

  /** Whatever the store does, a pass sends exactly the edges of adjacent passes if and only if it compares rightly. */
  lemma SendsEdgesIff(ticks: seq<Tick>, i: nat)
    requires i < |ticks| && UniqueNames(ticks[i].pass)
    ensures Sent(ticks, i) == AlertsAt(Passes(ticks), i) <==> ComparesRightly(ticks, i)
  {
    var pass := ticks[i].pass;
    var read := if ticks[i].readFails then None else LastWritten(ticks, i);
    var before := if i == 0 then None else Some(i - 1);
    var p, q := SnapshotOf(ticks, read), SnapshotOf(ticks, before);
    LeftIsLastWritten(ticks, i);
    assert Sent(ticks, i) == Edges(p, pass) && AlertsAt(Passes(ticks), i) == Edges(q, pass);
    forall k | 0 <= k < |pass|
      ensures Edge(p, pass[k]) == Edge(q, pass[k]) <==> (News(ticks, read, pass[k]) <==> News(ticks, before, pass[k]))
    {
      NewsIsEdge(ticks, read, pass[k]);
      NewsIsEdge(ticks, before, pass[k]);
    }
    hide News, Edge, SnapshotOf, Sent, AlertsAt;
    if ComparesRightly(ticks, i) {
      SameEdges(p, q, pass);
    } else if Edges(p, pass) == Edges(q, pass) {
      forall k | 0 <= k < |pass| ensures Edge(p, pass[k]) == Edge(q, pass[k]) {
        if Edge(p, pass[k]).Some? { SentOnBoth(p, q, pass, k); }
        if Edge(q, pass[k]).Some? { SentOnBoth(q, p, pass, k); }
      }
    }
  }

  /** So does a whole run if and only if every pass of it does. */
  lemma RunSendsEdgesIff(ticks: seq<Tick>)
    requires forall i :: 0 <= i < |ticks| ==> UniqueNames(ticks[i].pass)
    ensures (forall i :: 0 <= i < |ticks| ==> Sent(ticks, i) == AlertsAt(Passes(ticks), i)) <==>
            (forall i :: 0 <= i < |ticks| ==> ComparesRightly(ticks, i))
  {
    hide Sent, ComparesRightly;
    forall i | 0 <= i < |ticks| ensures Sent(ticks, i) == AlertsAt(Passes(ticks), i) <==> ComparesRightly(ticks, i) {
      SendsEdgesIff(ticks, i);
    }
  }

  /** The ticker: the stored snapshot, read and overwritten by every pass. */
  class InfraTicker {
    var state: Option<Snapshot>
    ghost var log: seq<Tick>

    ghost predicate Valid()
      reads this
    {
      state == Left(log)
    }

    constructor ()
      ensures Valid() && log == []
    {
      state, log := None, [];
    }

    /** Either Redis call may fail: an unreadable snapshot alerts nothing, an unwritten one stays. */
    method RunInfra(results: Pass, readFails: bool, writeFails: bool) returns (alerts: seq<Alert>)
      requires Valid()
      modifies this
      ensures Valid() && log == old(log) + [Tick(results, readFails, writeFails)]
      ensures alerts == Sent(log, |log| - 1)
    {
      log := log + [Tick(results, readFails, writeFails)];
      assert log[..|log| - 1] == old(log);
      var prev := if readFails then None else state;
      var next: Snapshot := map[];
      for i := 0 to |results|
        invariant next == Stored(results[..i])
      {
        assert results[..i + 1][..i] == results[..i];
        next := next[results[i].name := results[i].status];
      }
      assert results[..|results|] == results;
      if !writeFails { state := Some(next); }
      alerts := [];
      if prev.None? {
        NoBaselineNoEdges(results);
        return;
      }
      for i := 0 to |results|
        invariant alerts == Edges(prev, results[..i])
      {
        assert results[..i + 1][..i] == results[..i];
        var r := results[i];
        if r.name !in prev.value || prev.value[r.name] == r.status { continue; }
        if r.status == ERROR {
          alerts := alerts + [Down(r.name)];
        } else {
          alerts := alerts + [Recovered(r.name)];
        }
      }
    }
  }
}
