/** The login and password-change throttles: at most ten attempts a window, windows at least a minute apart. */
module Throttle {
  import opened Calls
  import opened Common
  import opened Intervals
  import opened Counters

  const LIMIT: nat := 10
  const WINDOW: nat := 60000

  /** Attempts in the closed interval that Redis answered and that got past the throttle. */
  function Passed(cs: seq<Command>, key: Key, a: int, b: int): nat
    decreases |cs|
  {
    if cs == [] then 0
    else
      var front, c := cs[..|cs| - 1], cs[|cs| - 1];
      Passed(front, key, a, b) + (if c.Incr? && c.key == key && Within(c.at, a, b) && Answer(After(WINDOW, front), key, c.at) <= LIMIT then 1 else 0)
  }

  function Capped(w: Window): nat {
    if |w.times| <= LIMIT then |w.times| else LIMIT
  }

  /** How many of a window's first ten attempts fall into the interval. */
  function Admitted(w: Window, a: int, b: int): nat {
    CountIn(w.times, Capped(w), a, b)
  }

  function Total(ws: seq<Window>, a: int, b: int): nat
    decreases |ws|
  {
    if ws == [] then 0 else Total(ws[..|ws| - 1], a, b) + Admitted(ws[|ws| - 1], a, b)
  }

  lemma TotalLast(ws: seq<Window>, w: Window, a: int, b: int)
    ensures Total(ws + [w], a, b) == Total(ws, a, b) + Admitted(w, a, b)
  {
    assert (ws + [w])[..|ws|] == ws;
  }

  lemma AdmittedNext(w: Window, at: int, a: int, b: int)
    ensures Admitted(w.(times := w.times + [at]), a, b) ==
            Admitted(w, a, b) + if |w.times| + 1 <= LIMIT && Within(at, a, b) then 1 else 0
  {
    CountPrefix(w.times, w.times + [at], Capped(w), a, b);
  }

  lemma TotalStep(s: Store, ws: seq<Window>, key: Key, before: int, c: Command, a: int, b: int)
    requires Reflects(WINDOW, s, key, ws, before)
    ensures Total(Extend(WINDOW, s, ws, key, c), a, b) ==
            Total(ws, a, b) + if c.Incr? && c.key == key && Within(c.at, a, b) && Answer(s, key, c.at) <= LIMIT then 1 else 0
  {
    if c.key == key && ws != [] {
      var front, w := ws[..|ws| - 1], ws[|ws| - 1];
      if c.ExpireLands? {
        TotalLast(front, w.(landed := Some(c.at)), a, b);
      } else if Alive(s, key, c.at) {
        TotalLast(front, w.(times := w.times + [c.at]), a, b);
        AdmittedNext(w, c.at, a, b);
      } else {
        TotalOpened(ws, c.at, a, b);
      }
    } else if c.key == key && c.Incr? {
      TotalOpened(ws, c.at, a, b);
    }
  }

  lemma TotalOpened(ws: seq<Window>, at: int, a: int, b: int)
    ensures Total(ws + [Window([at], None)], a, b) == Total(ws, a, b) + if Within(at, a, b) then 1 else 0
  {
    TotalLast(ws, Window([at], None), a, b);
    assert CountIn([at], 1, a, b) == CountIn([at], 0, a, b) + if Within(at, a, b) then 1 else 0;
  }

  lemma {:induction false} PassedIsTotal(cs: seq<Command>, key: Key, a: int, b: int)
    requires Timed(cs)
    ensures Passed(cs, key, a, b) == Total(Windows(WINDOW, cs, key), a, b)
    decreases |cs|
  {
    if cs != [] {
      var front, c := cs[..|cs| - 1], cs[|cs| - 1];
      var before := if front == [] then c.at else front[|front| - 1].at;
      PassedIsTotal(front, key, a, b);
      WindowsHold(WINDOW, front, key, before);
      hide WindowsOk, Extend, Answer;
      TotalStep(After(WINDOW, front), Windows(WINDOW, front, key), key, before, c, a, b);
    }
  }

  /** From the first window that admits anything on, ten a window. */
  lemma {:induction false} TotalFrom(ws: seq<Window>, f: nat, a: int, b: int)
    requires f < |ws| && forall i :: 0 <= i < f ==> Admitted(ws[i], a, b) == 0
    ensures Total(ws, a, b) <= Admitted(ws[f], a, b) + LIMIT * (|ws| - f - 1)
    decreases |ws|
  {
    var front, w := ws[..|ws| - 1], ws[|ws| - 1];
    if f < |front| {
      CountBound(w.times, Capped(w), a, b);
      TotalFrom(front, f, a, b);
    } else {
      NothingBefore(front, a, b);
    }
  }

  lemma {:induction false} NothingBefore(ws: seq<Window>, a: int, b: int)
    requires forall i :: 0 <= i < |ws| ==> Admitted(ws[i], a, b) == 0
    ensures Total(ws, a, b) == 0
    decreases |ws|
  {
    if ws != [] { NothingBefore(ws[..|ws| - 1], a, b); }
  }

  lemma {:induction false} FirstAdmitting(ws: seq<Window>, a: int, b: int) returns (f: nat)
    requires ws != [] && Admitted(ws[|ws| - 1], a, b) > 0
    ensures f < |ws| && Admitted(ws[f], a, b) > 0 && forall i :: 0 <= i < f ==> Admitted(ws[i], a, b) == 0
  {
    f := 0;
    while Admitted(ws[f], a, b) == 0
      invariant f < |ws| && forall i :: 0 <= i < f ==> Admitted(ws[i], a, b) == 0
      decreases |ws| - f
    {
      f := f + 1;
    }
  }

  const SPAN: nat := WINDOW + 1

  /** Ten for every window that can open within `length` milliseconds, and nine left over from one opened before. */
  function Bound(length: nat): nat {
    LIMIT * (length / SPAN + 1) + if length % SPAN == 0 then 0 else LIMIT - 1
  }

  lemma OpenersFit(length: nat, n: nat)
    requires SPAN * n <= length
    ensures LIMIT * (n + 1) <= Bound(length)
  {
  }

  lemma CarriedFit(length: nat, n: nat)
    requires n > 0 ==> SPAN * (n - 1) < length
    ensures LIMIT - 1 + LIMIT * n <= Bound(length)
  {
    if n > 0 {
      assert n - 1 <= (length - 1) / SPAN;
    }
  }

  lemma {:induction false} TotalBounded(ws: seq<Window>, a: int, b: int)
    requires WindowsOk(WINDOW, ws) && a <= b
    ensures Total(ws, a, b) <= Bound(b - a)
    decreases |ws|
  {
    if ws != [] {
      var l := |ws| - 1;
      if Admitted(ws[l], a, b) == 0 {
        TotalBounded(ws[..l], a, b);
      } else {
        var f := FirstAdmitting(ws, a, b);
        TotalFrom(ws, f, a, b);
        SpreadBounded(ws, f, a, b);
      }
    }
  }

  lemma SpreadBounded(ws: seq<Window>, f: nat, a: int, b: int)
    requires WindowsOk(WINDOW, ws) && a <= b && f < |ws|
    requires Admitted(ws[f], a, b) > 0 && Admitted(ws[|ws| - 1], a, b) > 0
    ensures Admitted(ws[f], a, b) + LIMIT * (|ws| - f - 1) <= Bound(b - a)
  {
    var l, first, last := |ws| - 1, ws[f], ws[|ws| - 1];
    CountBound(first.times, Capped(first), a, b);
    CountBound(last.times, Capped(last), a, b);
    assert WindowOk(WINDOW, first) && WindowOk(WINDOW, last);
    assert last.times[0] <= b;
    var k: nat :| k < Capped(first) && Within(first.times[k], a, b);
    if f < l { WindowsSpaced(WINDOW, ws, f, l, k); }
    hide WindowsOk, Bound;
    if first.times[0] >= a {
      OpenersFit(b - a, l - f);
    } else {
      CountSkipsFirst(first.times, Capped(first), a, b);
      CarriedFit(b - a, l - f);
    }
  }

  /** Minutes begun in `length` milliseconds. */
  function Minutes(length: nat): nat {
    (length + WINDOW - 1) / WINDOW
  }

  lemma BoundByMinutes(length: nat)
    ensures Bound(length) <= LIMIT * (Minutes(length) + 1)
  {
  }

  /**
   With Redis answering, what gets past the throttle for any one key in a closed interval is
   bounded as follows, whenever the EXPIREs land; in any case by ten per minute begun, plus ten.
   */
  lemma ThrottleBound(cs: seq<Command>, key: Key, a: int, b: int)
    requires Timed(cs) && a <= b
    ensures Passed(cs, key, a, b) <= Bound(b - a) <= LIMIT * (Minutes(b - a) + 1)
  {
    PassedIsTotal(cs, key, a, b);
    if cs != [] { WindowsHold(WINDOW, cs, key, cs[|cs| - 1].at); }
    TotalBounded(Windows(WINDOW, cs, key), a, b);
    BoundByMinutes(b - a);
  }

  // -- Ten a minute is not what the windows give ---------------------------------------------

  function Burst(key: Key, at: int, n: nat): seq<Command> {
    seq(n, _ => Incr(key, at))
  }

  /** One attempt in a live window with room for it gets through. */
  lemma RoomForOne(cs: seq<Command>, key: Key, at: int, a: int, b: int)
    requires var s := After(WINDOW, cs); Alive(s, key, at) && s.cells[key].count + 1 <= LIMIT
    requires Within(at, a, b)
    ensures Passed(cs + [Incr(key, at)], key, a, b) == Passed(cs, key, a, b) + 1
    ensures var s, t := After(WINDOW, cs), After(WINDOW, cs + [Incr(key, at)]);
            key in t.cells && t.cells[key] == s.cells[key].(count := s.cells[key].count + 1)
  {
    OneMore(cs, key, at, a, b);
    hide After, Passed;
  }

  /** So do `n` attempts at one moment, with room for all of them. */
  lemma {:induction false} BurstPasses(cs: seq<Command>, key: Key, at: int, n: nat, a: int, b: int)
    requires var s := After(WINDOW, cs); Alive(s, key, at) && s.cells[key].count + n <= LIMIT
    requires Within(at, a, b)
    ensures Passed(cs + Burst(key, at, n), key, a, b) == Passed(cs, key, a, b) + n
    ensures var s, t := After(WINDOW, cs), After(WINDOW, cs + Burst(key, at, n));
            key in t.cells && t.cells[key] == s.cells[key].(count := s.cells[key].count + n)
    decreases n
  {
    hide After, Passed;
    if n == 0 {
      assert cs + Burst(key, at, 0) == cs;
    } else {
      BurstPasses(cs, key, at, n - 1, a, b);
      var before := cs + Burst(key, at, n - 1);
      assert cs + Burst(key, at, n) == before + [Incr(key, at)];
      RoomForOne(before, key, at, a, b);
    }
  }

  lemma OneMore(cs: seq<Command>, key: Key, at: int, a: int, b: int)
    ensures After(WINDOW, cs + [Incr(key, at)]) == Step(WINDOW, After(WINDOW, cs), Incr(key, at))
    ensures Passed(cs + [Incr(key, at)], key, a, b) ==
            Passed(cs, key, a, b) + if Within(at, a, b) && Answer(After(WINDOW, cs), key, at) <= LIMIT then 1 else 0
  {
    assert (cs + [Incr(key, at)])[..|cs|] == cs;
  }

  // -- The bound is met ------------------------------------------------------------------------

  /** A window opened, given its EXPIRE and filled at one moment. */
  function Windowful(key: Key, at: int): seq<Command> {
    [Incr(key, at), ExpireLands(key, at)] + Burst(key, at, LIMIT - 1)
  }

  /** `n` of them, each as soon as the one before is over. */
  function Peaks(key: Key, at: int, n: nat): seq<Command> {
    if n == 0 then [] else Peaks(key, at, n - 1) + Windowful(key, at + SPAN * (n - 1))
  }

  /** A window opened early and filled at its very end. */
  function Carried(key: Key): seq<Command> {
    [Incr(key, 0), ExpireLands(key, 0)] + Burst(key, WINDOW, LIMIT - 1)
  }

  /** The worst run for an interval of this length that starts at 60000. */
  function Worst(key: Key, length: nat): seq<Command> {
    if length % SPAN == 0 then Peaks(key, WINDOW, length / SPAN + 1) else Carried(key) + Peaks(key, SPAN, length / SPAN + 1)
  }

  lemma OpenedThere(cs: seq<Command>, key: Key, at: int, a: int, b: int)
    requires !Alive(After(WINDOW, cs), key, at)
    ensures var cs' := cs + [Incr(key, at), ExpireLands(key, at)];
            && Passed(cs', key, a, b) == Passed(cs, key, a, b) + (if Within(at, a, b) then 1 else 0)
            && key in After(WINDOW, cs').cells && After(WINDOW, cs').cells[key] == Cell(1, Some(at + WINDOW))
  {
    var c1 := cs + [Incr(key, at)];
    var c2 := cs + [Incr(key, at), ExpireLands(key, at)];
    OneMore(cs, key, at, a, b);
    assert c2[..|c2| - 1] == c1;
    assert After(WINDOW, c2) == Step(WINDOW, After(WINDOW, c1), ExpireLands(key, at));
  }

  lemma WindowfulPasses(cs: seq<Command>, key: Key, at: int, a: int, b: int)
    requires !Alive(After(WINDOW, cs), key, at) && Within(at, a, b)
    ensures var cs' := cs + Windowful(key, at);
            && Passed(cs', key, a, b) == Passed(cs, key, a, b) + LIMIT
            && key in After(WINDOW, cs').cells && After(WINDOW, cs').cells[key] == Cell(LIMIT, Some(at + WINDOW))
  {
    var before := cs + [Incr(key, at), ExpireLands(key, at)];
    OpenedThere(cs, key, at, a, b);
    hide After, Passed;
    BurstPasses(before, key, at, LIMIT - 1, a, b);
    assert cs + Windowful(key, at) == before + Burst(key, at, LIMIT - 1);
  }

  lemma {:induction false} PeaksPass(cs: seq<Command>, key: Key, at: int, n: nat, a: int, b: int)
    requires !Alive(After(WINDOW, cs), key, at) && a <= at && (n > 0 ==> at + SPAN * (n - 1) <= b)
    ensures Passed(cs + Peaks(key, at, n), key, a, b) == Passed(cs, key, a, b) + LIMIT * n
    ensures !Alive(After(WINDOW, cs + Peaks(key, at, n)), key, at + SPAN * n)
  {
    hide After, Passed;
    if n == 0 {
      assert cs + Peaks(key, at, 0) == cs;
    } else {
      PeaksPass(cs, key, at, n - 1, a, b);
      var before, next := cs + Peaks(key, at, n - 1), at + SPAN * (n - 1);
      WindowfulPasses(before, key, next, a, b);
      assert cs + Peaks(key, at, n) == before + Windowful(key, next);
    }
  }

  ghost predicate Between(cs: seq<Command>, from: int, to: int) {
    Timed(cs) && forall i :: 0 <= i < |cs| ==> from <= cs[i].at <= to
  }

  lemma Later(cs: seq<Command>, ds: seq<Command>, from: int, middle: int, next: int, to: int)
    requires Between(cs, from, middle) && Between(ds, next, to) && from <= middle <= next <= to
    ensures Between(cs + ds, from, to)
  {
  }

  lemma {:induction false} PeaksInOrder(key: Key, at: int, n: nat)
    ensures Between(Peaks(key, at, n), at, at + SPAN * n)
  {
    if n > 0 {
      PeaksInOrder(key, at, n - 1);
      var next := at + SPAN * (n - 1);
      assert Between(Windowful(key, next), next, next);
      Later(Peaks(key, at, n - 1), Windowful(key, next), at, next, next, at + SPAN * n);
    }
  }

  lemma PeaksAlone(key: Key, n: nat, a: int, b: int)
    requires a <= WINDOW && (n > 0 ==> WINDOW + SPAN * (n - 1) <= b)
    ensures Timed(Peaks(key, WINDOW, n)) && Passed(Peaks(key, WINDOW, n), key, a, b) == LIMIT * n
  {
    hide Peaks;
    PeaksInOrder(key, WINDOW, n);
    PeaksPass([], key, WINDOW, n, a, b);
    assert [] + Peaks(key, WINDOW, n) == Peaks(key, WINDOW, n);
  }

  lemma CarriedPasses(key: Key, b: int)
    requires WINDOW <= b
    ensures Passed(Carried(key), key, WINDOW, b) == LIMIT - 1
    ensures !Alive(After(WINDOW, Carried(key)), key, SPAN)
  {
    var c2 := [Incr(key, 0), ExpireLands(key, 0)];
    OpenedThere([], key, 0, WINDOW, b);
    assert [] + c2 == c2;
    assert Passed([], key, WINDOW, b) == 0;
    hide After, Passed;
    BurstPasses(c2, key, WINDOW, LIMIT - 1, WINDOW, b);
  }

  lemma PeaksAfterCarried(key: Key, n: nat, b: int)
    requires WINDOW <= b && (n > 0 ==> SPAN + SPAN * (n - 1) <= b)
    ensures Timed(Carried(key) + Peaks(key, SPAN, n))
    ensures Passed(Carried(key) + Peaks(key, SPAN, n), key, WINDOW, b) == LIMIT - 1 + LIMIT * n
  {
    CarriedPasses(key, b);
    assert Between(Carried(key), 0, WINDOW);
    hide Peaks, Carried, After, Passed, Alive;
    PeaksPass(Carried(key), key, SPAN, n, WINDOW, b);
    PeaksInOrder(key, SPAN, n);
    Later(Carried(key), Peaks(key, SPAN, n), 0, WINDOW, SPAN, SPAN + SPAN * n);
  }

  /** For every length there is a run in time order that gets exactly the bound through. */
  lemma BoundIsMet(key: Key, length: nat)
    ensures Timed(Worst(key, length)) && Passed(Worst(key, length), key, WINDOW, WINDOW + length) == Bound(length)
  {
    hide Peaks, Carried, Passed;
    if length % SPAN == 0 {
      PeaksAlone(key, length / SPAN + 1, WINDOW, WINDOW + length);
    } else {
      PeaksAfterCarried(key, length / SPAN + 1, WINDOW + length);
    }
  }

  lemma OnePeak(key: Key, at: int)
    ensures Peaks(key, at, 1) == Windowful(key, at)
  {
    assert Peaks(key, at, 0) == [];
    assert at + SPAN * 0 == at;
  }

  /** An attempt, nine more at the very end of its window and ten just after it: nineteen pass within a millisecond. */
  lemma NineteenInAMillisecond(key: Key)
    ensures var cs := Carried(key) + Windowful(key, 60001);
            Timed(cs) && Passed(cs, key, 60000, 60001) == 19
  {
    hide Passed, Carried, Windowful, Peaks, Timed, Burst, After;
    OnePeak(key, 60001);
    PeaksAfterCarried(key, 1, 60001);
  }

  // -- The cost of a lost EXPIRE ----------------------------------------------------------

  predicate NeverLands(cs: seq<Command>, key: Key) {
    forall i :: 0 <= i < |cs| && cs[i].ExpireLands? ==> cs[i].key != key
  }

  /** A full counter without a deadline refuses every later attempt, until an EXPIRE gets through. */
  lemma {:induction false} LostExpireRefusesForever(cs: seq<Command>, more: seq<Command>, key: Key, at: int)
    requires NeverLands(more, key)
    requires var s := After(WINDOW, cs); key in s.cells && s.cells[key].deadline.None? && s.cells[key].count >= LIMIT
    ensures var s := After(WINDOW, cs + more);
            && key in s.cells && s.cells[key].deadline.None? && s.cells[key].count >= LIMIT
            && Answer(s, key, at) > LIMIT
    decreases |more|
  {
    if more == [] {
      assert cs + more == cs;
    } else {
      var front, c := more[..|more| - 1], more[|more| - 1];
      LostExpireRefusesForever(cs, front, key, at);
      assert (cs + more)[..|cs + more| - 1] == cs + front;
    }
  }

  // -- The handlers' part -----------------------------------------------------------------

  function Lower(s: string): string {
    if s == [] then [] else [if 'A' <= s[0] <= 'Z' then (s[0] as int + 32) as char else s[0]] + Lower(s[1..])
  }

  /** Two usernames share a counter exactly when they differ in the case of ASCII letters only. */
  lemma {:induction false} LowerFolds(a: string, b: string)
    ensures |Lower(a)| == |a|
    ensures forall i :: 0 <= i < |a| ==> Lower(a)[i] == if 'A' <= a[i] <= 'Z' then (a[i] as int + 32) as char else a[i]
    ensures Lower(a) == Lower(b) <==> |a| == |b| && forall i :: 0 <= i < |a| ==> SameLetter(a[i], b[i])
    decreases |a| + |b|
  {
    if a != [] { LowerFolds(a[1..], []); }
    if b != [] { LowerFolds(b[1..], []); }
    if a != [] && b != [] {
      LowerFolds(a[1..], b[1..]);
      assert a == [a[0]] + a[1..] && b == [b[0]] + b[1..];
    }
  }

  predicate SameLetter(x: char, y: char) {
    || x == y
    || ('A' <= x <= 'Z' && y as int == x as int + 32)
    || ('A' <= y <= 'Z' && x as int == y as int + 32)
  }

  /** The counters behind both handlers. */
  class Gate {
    var store: Store
    ghost var log: seq<Command>

    ghost predicate Valid()
      reads this
    {
      store == After(WINDOW, log)
    }

    constructor ()
      ensures Valid() && log == []
    {
      store, log := EMPTY, [];
    }

    method Incr(key: Key, now: int) returns (attempts: nat)
      requires Valid()
      modifies this
      ensures Valid() && log == old(log) + [Command.Incr(key, now)]
      ensures attempts == Answer(old(store), key, now)
    {
      if Alive(store, key, now) {
        attempts := store.cells[key].count + 1;
        store := store.(cells := store.cells[key := store.cells[key].(count := attempts)]);
      } else {
        attempts := 1;
        store := Store(store.cells[key := Cell(1, None)], store.owed + {key});
      }
      assert (log + [Command.Incr(key, now)])[..|log|] == log;
      log := log + [Command.Incr(key, now)];
    }

    method Expire(key: Key, now: int)
      requires Valid()
      modifies this
      ensures Valid() && log == old(log) + [ExpireLands(key, now)]
    {
      store := Step(WINDOW, store, ExpireLands(key, now));
      assert (log + [ExpireLands(key, now)])[..|log|] == log;
      log := log + [ExpireLands(key, now)];
    }

    /** One attempt run without interruption; either command may fail, and a failure lets the attempt through. */
    method Attempt(key: Key, now: int, incr: Fate, expire: Fate) returns (limited: bool)
      requires Valid()
      modifies this
      ensures Valid()
      ensures limited <==> incr.Answered? && Answer(old(store), key, now) > LIMIT
      ensures log == old(log) + (if incr.Lost? then [] else [Command.Incr(key, now)]) +
                     if incr.Answered? && Answer(old(store), key, now) == 1 && !expire.Lost? then [ExpireLands(key, now)] else []
    {
      if incr.Lost? { return false; }
      var attempts := Incr(key, now);
      if incr.Applied? { return false; }
      if attempts == 1 {
        if expire.Lost? { return false; }
        Expire(key, now);
        if expire.Applied? { return false; }
      }
      return attempts > LIMIT;
    }

    method Login(username: string, now: int, incr: Fate, expire: Fate) returns (limited: bool)
      requires Valid()
      modifies this
      ensures Valid()
      ensures limited <==> incr.Answered? && Answer(old(store), Key.Login(Lower(username)), now) > LIMIT
    {
      limited := Attempt(Key.Login(Lower(username)), now, incr, expire);
    }

    method ChangePassword(user: int, now: int, incr: Fate, expire: Fate) returns (limited: bool)
      requires Valid()
      modifies this
      ensures Valid()
      ensures limited <==> incr.Answered? && Answer(old(store), PasswordChange(user), now) > LIMIT
    {
      limited := Attempt(PasswordChange(user), now, incr, expire);
    }
  }
}
