/**
 Reconnaissance detection: denied responses are counted per address, and a response that
 reaches the threshold claims the address's cooldown marker; the winner writes one audit row.
 */
module Scan {
  import opened Calls
  import opened Common
  import opened Intervals
  import opened Counters

  const WINDOW: nat := 600000
  const COOLDOWN: nat := 3600000

  type Ip = string

  /**
   A counter command, or a response's SET NX EX on the cooldown marker. `hit` is the index of the
   counter command that response sent before, and `recorded` whether its audit row was then written.
   */
  datatype Event = Counter(command: Command) | Claims(ip: Ip, time: int, hit: nat, recorded: bool)

  function At(e: Event): int {
    if e.Counter? then e.command.at else e.time
  }

  predicate Timed(es: seq<Event>) {
    forall i, j :: 0 <= i < j < |es| ==> At(es[i]) <= At(es[j])
  }

  /** The counter's side of a history. */
  function Commands(es: seq<Event>): seq<Command>
    decreases |es|
  {
    if es == [] then []
    else
      var e := es[|es| - 1];
      Commands(es[..|es| - 1]) + if e.Counter? then [e.command] else []
  }

  /** What the response behind event `i` was told its count is. */
  function CountAt(es: seq<Event>, i: nat): nat
    requires i < |es| && es[i].Counter? && es[i].command.Incr?
  {
    Answer(After(WINDOW, Commands(es[..i])), es[i].command.key, es[i].command.at)
  }

  /** Only a response whose count reached the threshold gets as far as the claim. */
  predicate Entitled(threshold: nat, es: seq<Event>, i: nat)
    requires i < |es|
  {
    && es[i].Claims? && es[i].hit < i
    && es[es[i].hit].Counter? && es[es[i].hit].command.Incr? && es[es[i].hit].command.key == Key.Scan(es[i].ip)
    && CountAt(es, es[i].hit) >= threshold
  }

  /** When the marker of `ip` runs out, if it was ever set. */
  function MarkedUntil(threshold: nat, es: seq<Event>, ip: Ip): Option<int>
    decreases |es|, 1
  {
    if es == [] then None
    else if Wins(threshold, es, ip) then Some(es[|es| - 1].time + COOLDOWN)
    else MarkedUntil(threshold, es[..|es| - 1], ip)
  }

  predicate Marked(threshold: nat, es: seq<Event>, ip: Ip, now: int)
    decreases |es|, 2
  {
    var until := MarkedUntil(threshold, es, ip);
    until.Some? && now <= until.value
  }

  /** The last event is an entitled claim for `ip` that finds no live marker. */
  predicate Wins(threshold: nat, es: seq<Event>, ip: Ip)
    requires es != []
    decreases |es|, 0
  {
    var last := |es| - 1;
    Entitled(threshold, es, last) && es[last].ip == ip && !Marked(threshold, es[..last], ip, es[last].time)
  }

  /** The times of the winning claims, oldest first. */
  function WinTimes(threshold: nat, es: seq<Event>, ip: Ip): seq<int>
    decreases |es|
  {
    if es == [] then []
    else WinTimes(threshold, es[..|es| - 1], ip) + if Wins(threshold, es, ip) then [es[|es| - 1].time] else []
  }

  /** SCAN_DETECTED rows for `ip` in a closed interval. */
  function Rows(threshold: nat, es: seq<Event>, ip: Ip, a: int, b: int): nat
    decreases |es|
  {
    if es == [] then 0
    else
      var e := es[|es| - 1];
      Rows(threshold, es[..|es| - 1], ip, a, b) + if Wins(threshold, es, ip) && e.recorded && Within(e.time, a, b) then 1 else 0
  }

  // -- Spacing -----------------------------------------------------------------------------

  ghost predicate Spaced(ts: seq<int>, until: Option<int>) {
    && (forall i, j :: 0 <= i < j < |ts| ==> ts[i] + COOLDOWN < ts[j])
    && (forall i :: 0 <= i < |ts| ==> until.Some? && ts[i] + COOLDOWN <= until.value)
  }

  lemma {:induction false} WinsAreSpaced(threshold: nat, es: seq<Event>, ip: Ip)
    requires Timed(es)
    ensures Spaced(WinTimes(threshold, es, ip), MarkedUntil(threshold, es, ip))
    decreases |es|
  {
    if es != [] {
      hide Entitled;
      var front := es[..|es| - 1];
      WinsAreSpaced(threshold, front, ip);
      var ts := WinTimes(threshold, front, ip);
      if Wins(threshold, es, ip) {
        var t := es[|es| - 1].time;
        assert !Marked(threshold, front, ip, t);
        assert forall i :: 0 <= i < |ts| ==> ts[i] + COOLDOWN < t;
        assert WinTimes(threshold, es, ip) == ts + [t];
        assert MarkedUntil(threshold, es, ip) == Some(t + COOLDOWN);
      } else {
        assert WinTimes(threshold, es, ip) == ts;
        assert MarkedUntil(threshold, es, ip) == MarkedUntil(threshold, front, ip);
      }
    }
  }

  lemma {:induction false} RowsAreWins(threshold: nat, es: seq<Event>, ip: Ip, a: int, b: int)
    ensures Rows(threshold, es, ip, a, b) <= CountIn(WinTimes(threshold, es, ip), |WinTimes(threshold, es, ip)|, a, b)
    decreases |es|
  {
    if es != [] {
      hide Wins;
      var front := es[..|es| - 1];
      RowsAreWins(threshold, front, ip, a, b);
      var ts := WinTimes(threshold, front, ip);
      CountPrefix(ts, WinTimes(threshold, es, ip), |ts|, a, b);
    }
  }

  lemma FitsHours(n: nat, length: nat)
    requires (COOLDOWN + 1) * n <= length
    ensures n <= length / (COOLDOWN + 1)
  {
  }

  /** In `length` milliseconds an address causes at most one row per hour passed, plus one, whatever audit writes fail. */
  lemma RowsBounded(threshold: nat, es: seq<Event>, ip: Ip, a: int, b: int)
    requires Timed(es) && a <= b
    ensures Rows(threshold, es, ip, a, b) <= (b - a) / (COOLDOWN + 1) + 1
  {
    WinsAreSpaced(threshold, es, ip);
    RowsAreWins(threshold, es, ip, a, b);
    var ts := WinTimes(threshold, es, ip);
    var n := CountIn(ts, |ts|, a, b);
    if n > 0 {
      var k := SpacedCount(ts, |ts|, COOLDOWN + 1, a, b);
      FitsHours(n - 1, b - a);
    }
  }

  /** After every entitled claim, won or lost, the marker is there. */
  lemma ClaimLeavesMarker(threshold: nat, es: seq<Event>)
    requires es != [] && Entitled(threshold, es, |es| - 1)
    ensures Marked(threshold, es, es[|es| - 1].ip, es[|es| - 1].time)
  {
    var front, ip, time := es[..|es| - 1], es[|es| - 1].ip, es[|es| - 1].time;
    hide Entitled;
    if Wins(threshold, es, ip) {
      assert MarkedUntil(threshold, es, ip) == Some(time + COOLDOWN);
    } else {
      assert Marked(threshold, front, ip, time);
      assert MarkedUntil(threshold, es, ip) == MarkedUntil(threshold, front, ip);
    }
  }

  /** A winning claim closes the next hour, to the millisecond. */
  lemma CooldownIsAnHour(threshold: nat, es: seq<Event>, ip: Ip)
    requires es != [] && Wins(threshold, es, ip)
    ensures var time := es[|es| - 1].time;
            Marked(threshold, es, ip, time + 3600000) && !Marked(threshold, es, ip, time + 3600001)
  {
  }

  // -- Justification -------------------------------------------------------------------------

  /** Counted responses of an address in a closed interval. */
  function Hits(cs: seq<Command>, key: Key, a: int, b: int): nat
    decreases |cs|
  {
    if cs == [] then 0
    else Hits(cs[..|cs| - 1], key, a, b) +
         if cs[|cs| - 1] == Incr(key, cs[|cs| - 1].at) && Within(cs[|cs| - 1].at, a, b) then 1 else 0
  }

  lemma {:induction false} CommandsTimed(es: seq<Event>)
    requires Timed(es)
    ensures Counters.Timed(Commands(es))
    ensures forall i :: 0 <= i < |Commands(es)| ==> es != [] && Commands(es)[i].at <= At(es[|es| - 1])
    decreases |es|
  {
    if es != [] {
      var front := es[..|es| - 1];
      CommandsTimed(front);
      if front != [] { assert At(front[|front| - 1]) <= At(es[|es| - 1]); }
    }
  }

  predicate AllWithin(ts: seq<int>, a: int, b: int) {
    forall k :: 0 <= k < |ts| ==> Within(ts[k], a, b)
  }

  /** Every time of the last window is a counted response. */
  lemma {:induction false} LastWindowIsHits(cs: seq<Command>, key: Key, a: int, b: int)
    requires Counters.Timed(cs)
    ensures var ws := Windows(WINDOW, cs, key);
            ws != [] && AllWithin(ws[|ws| - 1].times, a, b) ==> |ws[|ws| - 1].times| <= Hits(cs, key, a, b)
    decreases |cs|
  {
    if cs != [] {
      var front, c := cs[..|cs| - 1], cs[|cs| - 1];
      LastWindowIsHits(front, key, a, b);
      WindowsLast(WINDOW, cs, key);
      hide Windows, After, Alive;
      HitsStep(After(WINDOW, front), Windows(WINDOW, front, key), key, c, a, b, Hits(front, key, a, b));
    }
  }

  lemma HitsStep(s: Store, ws: seq<Window>, key: Key, c: Command, a: int, b: int, hits: nat)
    requires ws != [] && AllWithin(ws[|ws| - 1].times, a, b) ==> |ws[|ws| - 1].times| <= hits
    ensures var ws' := Extend(WINDOW, s, ws, key, c);
            ws' != [] && AllWithin(ws'[|ws'| - 1].times, a, b) ==>
              |ws'[|ws'| - 1].times| <= hits + if c == Incr(key, c.at) && Within(c.at, a, b) then 1 else 0
  {
    if c.key == key && c.Incr? {
      if Alive(s, key, c.at) && ws != [] {
        var ts := ws[|ws| - 1].times;
        assert AllWithin(ts + [c.at], a, b) ==> Within((ts + [c.at])[|ts|], a, b);
        assert forall k :: 0 <= k < |ts| ==> (ts + [c.at])[k] == ts[k];
      } else {
        assert AllWithin([c.at], a, b) ==> Within([c.at][0], a, b);
      }
    }
  }

  function CurrentWindow(cs: seq<Command>, key: Key): Window {
    var ws := Windows(WINDOW, cs, key);
    if ws == [] then Window([], None) else ws[|ws| - 1]
  }

  /** The window of the response behind an entitled claim, as it stood when that response was counted. */
  function WindowOf(es: seq<Event>, i: nat): Window
    requires i < |es| && es[i].Claims? && es[i].hit < |es|
  {
    CurrentWindow(Commands(es[..es[i].hit + 1]), Key.Scan(es[i].ip))
  }

  lemma CommandsSnoc(es: seq<Event>, i: nat)
    requires i < |es| && es[i].Counter?
    ensures Commands(es[..i + 1]) == Commands(es[..i]) + [es[i].command]
  {
    assert es[..i + 1][..i] == es[..i];
  }

  lemma LastOk(ttl: nat, s: Store, key: Key, ws: seq<Window>, now: int)
    requires WindowsOk(ttl, ws) && Reflects(ttl, s, key, ws, now) && ws != []
    ensures WindowOk(ttl, ws[|ws| - 1]) && AllWithin(ws[|ws| - 1].times, ws[|ws| - 1].times[0], now)
  {
    assert WindowOk(ttl, ws[|ws| - 1]);
  }

  lemma CountIsPlace(es: seq<Event>, hit: nat, key: Key, now: int)
    requires hit < |es| && Timed(es) && es[hit] == Counter(Incr(key, now))
    ensures var w := CurrentWindow(Commands(es[..hit + 1]), key);
            && WindowOk(WINDOW, w) && CountAt(es, hit) == |w.times|
            && AllWithin(w.times, w.times[0], now) && w.times[|w.times| - 1] == now
  {
    var cs := Commands(es[..hit + 1]);
    CommandsSnoc(es, hit);
    CommandsTimed(es[..hit + 1]);
    assert cs[..|cs| - 1] == Commands(es[..hit]);
    hide Commands, Windows, After, WindowsOk, Reflects, WindowOk, AllWithin;
    AnswerIsPlace(WINDOW, cs, key, now);
    WindowsHold(WINDOW, cs, key, now);
    LastOk(WINDOW, After(WINDOW, cs), key, Windows(WINDOW, cs, key), now);
  }

  lemma WindowOfIsFull(threshold: nat, es: seq<Event>, i: nat)
    requires i < |es| && Timed(es) && Entitled(threshold, es, i)
    ensures var w := WindowOf(es, i);
            && WindowOk(WINDOW, w) && threshold <= |w.times| && AllWithin(w.times, w.times[0], es[es[i].hit].command.at)
            && w.times[|w.times| - 1] == es[es[i].hit].command.at
  {
    var hit := es[i].hit;
    var c := es[hit].command;
    assert es[hit] == Counter(Incr(c.key, c.at)) && c.key == Key.Scan(es[i].ip) && threshold <= CountAt(es, hit);
    hide Entitled, CountAt, Commands, CurrentWindow, AllWithin, Timed;
    CountIsPlace(es, hit, c.key, c.at);
  }

  /**
   A row is justified: when the winning response was counted, its window held at least `threshold`
   counted responses; if the window's EXPIRE had landed, they lie within ten minutes and the delay
   of that EXPIRE before the response, and within ten minutes flat if it landed at once.
   */
  lemma RowIsJustified(threshold: nat, es: seq<Event>, i: nat)
    requires i < |es| && Timed(es) && Entitled(threshold, es, i)
    ensures var w := WindowOf(es, i);
            var now := es[es[i].hit].command.at;
            && w.times != []
            && threshold <= Hits(Commands(es[..es[i].hit + 1]), Key.Scan(es[i].ip), w.times[0], now)
            && (w.landed.Some? ==> w.times[0] <= w.landed.value && now - WINDOW - (w.landed.value - w.times[0]) <= w.times[0])
  {
    WindowOfIsFull(threshold, es, i);
    var w := WindowOf(es, i);
    var cs := Commands(es[..es[i].hit + 1]);
    CommandsTimed(es[..es[i].hit + 1]);
    LastWindowIsHits(cs, Key.Scan(es[i].ip), w.times[0], es[es[i].hit].command.at);
  }

  /** Without its EXPIRE a window never ends: two responses any time apart count as two. */
  lemma LostExpireNeverForgets(key: Key, first: int, second: int)
    requires first <= second
    ensures AnswerAt(WINDOW, [Incr(key, first), Incr(key, second)], 1) == 2
  {
    var cs := [Incr(key, first), Incr(key, second)];
    assert cs[..1] == [Incr(key, first)];
    assert After(WINDOW, cs[..1]) == Step(WINDOW, EMPTY, Incr(key, first)) by {
      assert cs[..1][..0] == [];
    }
  }

  /** With its EXPIRE landed at once a window takes in the next ten minutes, to the millisecond. */
  lemma WindowIsTenMinutes(key: Key, at: int)
    ensures var s := After(WINDOW, [Incr(key, at), ExpireLands(key, at)]); Answer(s, key, at + 600000) == 2 && Answer(s, key, at + 600001) == 1
  {
    var cs := [Incr(key, at), ExpireLands(key, at)];
    assert cs[..1] == [Incr(key, at)] && cs[..1][..0] == [];
    assert After(WINDOW, cs[..1]) == Step(WINDOW, EMPTY, Incr(key, at));
  }

  lemma CounterKeepsMarks(threshold: nat, es: seq<Event>, c: Command, ip: Ip)
    ensures MarkedUntil(threshold, es + [Counter(c)], ip) == MarkedUntil(threshold, es, ip)
    ensures Commands(es + [Counter(c)]) == Commands(es) + [c]
  {
    var next := es + [Counter(c)];
    assert next[..|next| - 1] == es;
    assert !Wins(threshold, next, ip);
  }

  lemma ClaimMarks(threshold: nat, es: seq<Event>, e: Event, ip: Ip)
    requires e.Claims? && Entitled(threshold, es + [e], |es|)
    ensures MarkedUntil(threshold, es + [e], ip) ==
            if ip == e.ip && !Marked(threshold, es, ip, e.time) then Some(e.time + COOLDOWN) else MarkedUntil(threshold, es, ip)
    ensures Commands(es + [e]) == Commands(es)
  {
    var next := es + [e];
    assert next[..|next| - 1] == es;
    hide Entitled;
    assert Wins(threshold, next, ip) <==> ip == e.ip && !Marked(threshold, es, ip, e.time);
  }

  /** The hook's two keys for every address, and the history behind them. */
  class Detector {
    const threshold: nat
    var counters: Store
    var fired: map<Ip, int>
    ghost var log: seq<Event>

    ghost predicate Valid()
      reads this
    {
      && counters == After(WINDOW, Commands(log))
      && forall ip :: MarkedUntil(threshold, log, ip) == if ip in fired then Some(fired[ip]) else None
    }

    constructor (threshold: nat)
      ensures Valid() && log == [] && this.threshold == threshold
    {
      this.threshold := threshold;
      counters, fired, log := EMPTY, map[], [];
    }

    method Send(c: Command)
      requires Valid()
      modifies `counters, `log
      ensures Valid() && log == old(log) + [Counter(c)] && counters == Step(WINDOW, old(counters), c)
    {
      forall ip { CounterKeepsMarks(threshold, log, c, ip); }
      CounterKeepsMarks(threshold, log, c, "");
      hide MarkedUntil, Step;
      assert (Commands(log) + [c])[..|Commands(log)|] == Commands(log);
      counters := Step(WINDOW, counters, c);
      log := log + [Counter(c)];
    }

    /** SET NX EX: true exactly when no live marker was there. */
    method Claim(ip: Ip, now: int, ghost hit: nat, ghost recorded: bool) returns (won: bool)
      requires Valid() && Entitled(threshold, log + [Claims(ip, now, hit, recorded)], |log|)
      modifies `fired, `log
      ensures Valid() && log == old(log) + [Claims(ip, now, hit, recorded)]
      ensures won <==> Wins(threshold, log, ip)
    {
      ghost var e := Claims(ip, now, hit, recorded);
      forall other { ClaimMarks(threshold, log, e, other); }
      ClaimMarks(threshold, log, e, ip);
      assert (log + [e])[..|log|] == log;
      hide MarkedUntil, Entitled;
      won := !(ip in fired && now <= fired[ip]);
      if won { fired := fired[ip := now + COOLDOWN]; }
      log := log + [e];
    }

    /** Whether a response told `n` gets as far as the marker: an EXPIRE that fails ends it. */
    predicate Contends(n: nat, incr: Fate, expire: Fate) {
      incr.Answered? && n >= threshold && (n == 1 ==> expire.Answered?)
    }

    /** The commands of one counted response that reach Redis. */
    ghost function Counting(ip: Ip, now: int, n: nat, incr: Fate, expire: Fate): seq<Event> {
      (if incr.Lost? then [] else [Counter(Incr(Key.Scan(ip), now))])
      + (if incr.Answered? && n == 1 && !expire.Lost? then [Counter(ExpireLands(Key.Scan(ip), now))] else [])
    }

    ghost function Sent(before: seq<Event>, ip: Ip, now: int, n: nat, incr: Fate, expire: Fate, claim: Fate, recorded: bool): seq<Event> {
      Counting(ip, now, n, incr, expire)
      + (if Contends(n, incr, expire) && !claim.Lost? then [Claims(ip, now, |before|, recorded)] else [])
    }

    lemma SentMeans(before: seq<Event>, ip: Ip, now: int, n: nat, incr: Fate, expire: Fate, claim: Fate, recorded: bool)
      ensures var reaches := incr == Answered && n >= threshold && (n == 1 ==> expire == Answered);
              && (Contends(n, incr, expire) <==> reaches)
              && before + Sent(before, ip, now, n, incr, expire, claim, recorded) ==
                 before
                 + (if incr == Lost then [] else [Counter(Incr(Key.Scan(ip), now))])
                 + (if incr == Answered && n == 1 && expire != Lost then [Counter(ExpireLands(Key.Scan(ip), now))] else [])
                 + (if reaches && claim != Lost then [Claims(ip, now, |before|, recorded)] else [])
    {
    }

    /** Try for the marker; the winner that hears of it owes a row. */
    method Contend(ip: Ip, now: int, ghost hit: nat, claim: Fate, auditFails: bool) returns (row: bool)
      requires Valid() && Entitled(threshold, log + [Claims(ip, now, hit, claim.Answered? && !auditFails)], |log|)
      modifies `fired, `log
      ensures Valid()
      ensures log == old(log) + if claim.Lost? then [] else [Claims(ip, now, hit, claim.Answered? && !auditFails)]
      ensures row <==> claim.Answered? && !auditFails && Wins(threshold, log, ip)
    {
      if claim.Lost? { return false; }
      var won := Claim(ip, now, hit, claim.Answered? && !auditFails);
      return won && claim.Answered? && !auditFails;
    }

    /** Count the response, and give a new window its EXPIRE. */
    method Count(ip: Ip, now: int, incr: Fate, expire: Fate) returns (contends: bool)
      requires Valid()
      modifies `counters, `log
      ensures Valid()
      ensures contends <==> Contends(Answer(old(counters), Key.Scan(ip), now), incr, expire)
      ensures log == old(log) + Counting(ip, now, Answer(old(counters), Key.Scan(ip), now), incr, expire)
    {
      hide Valid, Answer, Step, Commands, After, MarkedUntil, Wins, Entitled;
      if incr.Lost? { return false; }
      var n := Answer(counters, Key.Scan(ip), now);
      Send(Incr(Key.Scan(ip), now));
      if incr.Applied? { return false; }
      if n == 1 {
        if expire.Lost? { return false; }
        Send(ExpireLands(Key.Scan(ip), now));
        if expire.Applied? { return false; }
      }
      return n >= threshold;
    }

    /** The guarded part: count and, at the threshold, try for the marker. The first failure ends it. */
    method Respond(ip: Ip, now: int, incr: Fate, expire: Fate, claim: Fate, auditFails: bool) returns (row: bool)
      requires Valid()
      modifies this
      ensures Valid()
      ensures var n := Answer(old(counters), Key.Scan(ip), now);
              && log == old(log) + Sent(old(log), ip, now, n, incr, expire, claim, claim.Answered? && !auditFails)
              && (row <==> Contends(n, incr, expire) && claim.Answered? && !auditFails && Wins(threshold, log, ip))
    {
      hide Commands, After, Answer, Entitled, Wins;
      ghost var start := log;
      ghost var n := Answer(counters, Key.Scan(ip), now);
      assert n == Answer(After(WINDOW, Commands(start)), Key.Scan(ip), now);
      hide Valid;
      row := Count(ip, now, incr, expire);
      if row {
        CountedFirst(start, ip, now, n, incr, expire);
        CountEntitles(threshold, start, log, ip, now, claim.Answered? && !auditFails);
        hide Counting, Contends;
        row := Contend(ip, now, |start|, claim, auditFails);
      }
    }

    /** One response, uninterrupted: denied ones outside the login page are counted, by address. */
    method OnResponse(status: int, isLogin: bool, ip: Ip, now: int, incr: Fate, expire: Fate, claim: Fate, auditFails: bool)
      returns (row: bool)
      requires Valid()
      modifies this
      ensures Valid()
      ensures !((status == 401 || status == 403 || status == 404 || status == 429) && !isLogin && ip != "") ==> !row && log == old(log)
      ensures (status == 401 || status == 403 || status == 404 || status == 429) && !isLogin && ip != "" ==>
        (var n := Answer(old(counters), Key.Scan(ip), now);
         var reaches := incr == Answered && n >= threshold && (n == 1 ==> expire == Answered);
         && log == old(log)
                   + (if incr == Lost then [] else [Counter(Incr(Key.Scan(ip), now))])
                   + (if incr == Answered && n == 1 && expire != Lost then [Counter(ExpireLands(Key.Scan(ip), now))] else [])
                   + (if reaches && claim != Lost then [Claims(ip, now, |old(log)|, claim == Answered && !auditFails)] else [])
         && (row <==> reaches && claim == Answered && !auditFails && Wins(threshold, log, ip)))
    {
      hide Commands, After, Answer, Entitled, Wins, Valid, Sent, Contends;
      if (status != 401 && status != 403 && status != 404 && status != 429) || isLogin || ip == "" { return false; }
      ghost var n := Answer(counters, Key.Scan(ip), now);
      SentMeans(log, ip, now, n, incr, expire, claim, claim.Answered? && !auditFails);
      row := Respond(ip, now, incr, expire, claim, auditFails);
    }

    lemma CountedFirst(start: seq<Event>, ip: Ip, now: int, n: nat, incr: Fate, expire: Fate)
      requires Contends(n, incr, expire)
      ensures start + [Counter(Incr(Key.Scan(ip), now))] <= start + Counting(ip, now, n, incr, expire)
    {
    }
  }

  lemma CountEntitles(threshold: nat, start: seq<Event>, log: seq<Event>, ip: Ip, now: int, recorded: bool)
    requires start + [Counter(Incr(Key.Scan(ip), now))] <= log
    requires Answer(After(WINDOW, Commands(start)), Key.Scan(ip), now) >= threshold
    ensures Entitled(threshold, log + [Claims(ip, now, |start|, recorded)], |log|)
  {
    hide Answer, Commands, After;
    var es := log + [Claims(ip, now, |start|, recorded)];
    assert es[..|start|] == start;
    assert es[|start|] == Counter(Incr(Key.Scan(ip), now));
  }
}
