/**
 Counters kept in Redis with INCR and EXPIRE, and markers with SET NX EX, as separate
 commands at their own times. A counter's life is a list of windows: each is opened by
 the INCR that answers 1 and ends when the EXPIRE sent by that request runs out, whenever
 that EXPIRE lands, if it lands at all. Times are in milliseconds.
 */
module Counters {
  import opened Common

  datatype Key = Login(name: string) | PasswordChange(user: int) | Scan(ip: string)

  datatype Cell = Cell(count: nat, deadline: Option<int>)

  /** `owed` holds the counters whose opener has not got its EXPIRE through. */
  datatype Store = Store(cells: map<Key, Cell>, owed: set<Key>)

  const EMPTY := Store(map[], {})

  /** A key with a deadline is gone once the deadline has passed. */
  predicate Alive(s: Store, key: Key, now: int) {
    key in s.cells && (s.cells[key].deadline.Some? ==> now <= s.cells[key].deadline.value)
  }

  function Answer(s: Store, key: Key, now: int): nat {
    if Alive(s, key, now) then s.cells[key].count + 1 else 1
  }

  datatype Command = Incr(key: Key, at: int) | ExpireLands(key: Key, at: int)

  function Step(ttl: nat, s: Store, c: Command): Store {
    match c
    case Incr(key, at) =>
      if Alive(s, key, at) then s.(cells := s.cells[key := s.cells[key].(count := s.cells[key].count + 1)])
      else Store(s.cells[key := Cell(1, None)], s.owed + {key})
    case ExpireLands(key, at) =>
      if key in s.owed && key in s.cells
      then Store(s.cells[key := s.cells[key].(deadline := Some(at + ttl))], s.owed - {key})
      else s
  }

  function After(ttl: nat, cs: seq<Command>): Store
    decreases |cs|
  {
    if cs == [] then EMPTY else Step(ttl, After(ttl, cs[..|cs| - 1]), cs[|cs| - 1])
  }

  /** What the `i`th command, an INCR, was answered. */
  function AnswerAt(ttl: nat, cs: seq<Command>, i: nat): nat
    requires i < |cs| && cs[i].Incr?
  {
    Answer(After(ttl, cs[..i]), cs[i].key, cs[i].at)
  }

  /** The commands reach Redis in time order. */
  predicate Timed(cs: seq<Command>) {
    forall i, j :: 0 <= i < j < |cs| ==> cs[i].at <= cs[j].at
  }

  // -- The windows of one counter ------------------------------------------------------

  /** The times of all INCRs of the window, and when its EXPIRE landed. */
  datatype Window = Window(times: seq<int>, landed: Option<int>)

  function Extend(ttl: nat, s: Store, ws: seq<Window>, key: Key, c: Command): seq<Window> {
    if c.key != key then ws
    else if c.ExpireLands? then
      if key in s.owed && key in s.cells && ws != []
      then ws[..|ws| - 1] + [ws[|ws| - 1].(landed := Some(c.at))] else ws
    else if Alive(s, key, c.at) && ws != []
    then ws[..|ws| - 1] + [ws[|ws| - 1].(times := ws[|ws| - 1].times + [c.at])]
    else ws + [Window([c.at], None)]
  }

  function Windows(ttl: nat, cs: seq<Command>, key: Key): seq<Window>
    decreases |cs|
  {
    if cs == [] then []
    else
      var front, c := cs[..|cs| - 1], cs[|cs| - 1];
      Extend(ttl, After(ttl, front), Windows(ttl, front, key), key, c)
  }

  /** One window on its own: it has an opener, everything in it follows the opener and precedes its end. */
  ghost predicate WindowOk(ttl: nat, w: Window) {
    && w.times != []
    && (forall k :: 0 <= k < |w.times| ==> w.times[0] <= w.times[k])
    && (w.landed.Some? ==> w.times[0] <= w.landed.value && forall k :: 0 <= k < |w.times| ==> w.times[k] <= w.landed.value + ttl)
  }

  ghost predicate WindowsOk(ttl: nat, ws: seq<Window>) {
    && (forall i :: 0 <= i < |ws| ==> WindowOk(ttl, ws[i]))
    && (forall i :: 0 <= i < |ws| - 1 ==> ws[i].landed.Some? && ws[i].landed.value + ttl < ws[i + 1].times[0])
  }

  /** The cell is the last window, and nothing in it is later than `now`. */
  ghost predicate Reflects(ttl: nat, s: Store, key: Key, ws: seq<Window>, now: int) {
    && (key in s.cells <==> ws != [])
    && (ws != [] ==>
          var w := ws[|ws| - 1];
          && s.cells[key] == Cell(|w.times|, if w.landed.Some? then Some(w.landed.value + ttl) else None)
          && (key in s.owed <==> w.landed.None?)
          && (forall k :: 0 <= k < |w.times| ==> w.times[k] <= now))
  }

  lemma LastReplaced(ttl: nat, ws: seq<Window>, w: Window)
    requires WindowsOk(ttl, ws) && ws != [] && WindowOk(ttl, w) && w.times[0] == ws[|ws| - 1].times[0]
    ensures WindowsOk(ttl, ws[..|ws| - 1] + [w])
  {
    var ws' := ws[..|ws| - 1] + [w];
    forall i | 0 <= i < |ws'| ensures WindowOk(ttl, ws'[i]) { if i < |ws| - 1 { assert WindowOk(ttl, ws[i]); } }
    forall i | 0 <= i < |ws'| - 1 ensures ws'[i].landed.Some? && ws'[i].landed.value + ttl < ws'[i + 1].times[0] {
      assert ws'[i] == ws[i];
    }
  }

  lemma WindowAdded(ttl: nat, ws: seq<Window>, at: int)
    requires WindowsOk(ttl, ws)
    requires ws != [] ==> ws[|ws| - 1].landed.Some? && ws[|ws| - 1].landed.value + ttl < at
    ensures WindowsOk(ttl, ws + [Window([at], None)])
  {
    var ws' := ws + [Window([at], None)];
    forall i | 0 <= i < |ws'| - 1 ensures ws'[i].landed.Some? && ws'[i].landed.value + ttl < ws'[i + 1].times[0] {
      assert ws'[i] == ws[i];
    }
  }

  /** The three things that happen to a counter, and what a command for another one leaves alone. */
  predicate Lands(s: Store, ws: seq<Window>, key: Key, c: Command) {
    c.key == key && c.ExpireLands? && ws != [] && ws[|ws| - 1].landed.None?
  }

  lemma LandingKeeps(ttl: nat, s: Store, ws: seq<Window>, key: Key, now: int, at: int)
    requires WindowsOk(ttl, ws) && Reflects(ttl, s, key, ws, now) && now <= at && Lands(s, ws, key, ExpireLands(key, at))
    ensures var ws' := Extend(ttl, s, ws, key, ExpireLands(key, at));
            WindowsOk(ttl, ws') && Reflects(ttl, Step(ttl, s, ExpireLands(key, at)), key, ws', at)
  {
    var w := ws[|ws| - 1];
    assert WindowOk(ttl, w);
    var w' := w.(landed := Some(at));
    assert WindowOk(ttl, w');
    LastReplaced(ttl, ws, w');
    hide WindowsOk, WindowOk;
  }

  lemma CountingKeeps(ttl: nat, s: Store, ws: seq<Window>, key: Key, now: int, at: int)
    requires WindowsOk(ttl, ws) && Reflects(ttl, s, key, ws, now) && now <= at && Alive(s, key, at)
    ensures var ws' := Extend(ttl, s, ws, key, Incr(key, at));
            WindowsOk(ttl, ws') && Reflects(ttl, Step(ttl, s, Incr(key, at)), key, ws', at)
  {
    var w := ws[|ws| - 1];
    assert WindowOk(ttl, w);
    var w' := w.(times := w.times + [at]);
    assert WindowOk(ttl, w') by { assert w'.times[0] == w.times[0]; }
    LastReplaced(ttl, ws, w');
    hide WindowsOk, WindowOk;
    assert forall k :: 0 <= k < |w'.times| ==> w'.times[k] <= at;
  }

  lemma OpeningKeeps(ttl: nat, s: Store, ws: seq<Window>, key: Key, now: int, at: int)
    requires WindowsOk(ttl, ws) && Reflects(ttl, s, key, ws, now) && now <= at && !Alive(s, key, at)
    ensures var ws' := Extend(ttl, s, ws, key, Incr(key, at));
            WindowsOk(ttl, ws') && Reflects(ttl, Step(ttl, s, Incr(key, at)), key, ws', at)
  {
    hide WindowsOk, WindowOk;
    WindowAdded(ttl, ws, at);
  }

  lemma OtherKeeps(ttl: nat, s: Store, ws: seq<Window>, key: Key, now: int, c: Command)
    requires Reflects(ttl, s, key, ws, now) && now <= c.at
    requires c.key != key || (c.ExpireLands? && !Lands(s, ws, key, c))
    ensures Extend(ttl, s, ws, key, c) == ws && Reflects(ttl, Step(ttl, s, c), key, ws, c.at)
  {
  }

  lemma ExtendKeeps(ttl: nat, s: Store, ws: seq<Window>, key: Key, now: int, c: Command)
    requires WindowsOk(ttl, ws) && Reflects(ttl, s, key, ws, now) && now <= c.at
    ensures var ws' := Extend(ttl, s, ws, key, c); WindowsOk(ttl, ws') && Reflects(ttl, Step(ttl, s, c), key, ws', c.at)
  {
    hide WindowsOk, Reflects, Step, Extend, Alive;
    if c.key == key && c.Incr? {
      if Alive(s, key, c.at) { CountingKeeps(ttl, s, ws, key, now, c.at); } else { OpeningKeeps(ttl, s, ws, key, now, c.at); }
    } else if Lands(s, ws, key, c) {
      LandingKeeps(ttl, s, ws, key, now, c.at);
    } else {
      OtherKeeps(ttl, s, ws, key, now, c);
    }
  }

  lemma {:induction false} WindowsHold(ttl: nat, cs: seq<Command>, key: Key, now: int)
    requires Timed(cs) && (cs != [] ==> now == cs[|cs| - 1].at)
    ensures WindowsOk(ttl, Windows(ttl, cs, key))
    ensures Reflects(ttl, After(ttl, cs), key, Windows(ttl, cs, key), now)
    decreases |cs|
  {
    if cs != [] {
      var front, c := cs[..|cs| - 1], cs[|cs| - 1];
      var before := if front == [] then c.at else front[|front| - 1].at;
      WindowsHold(ttl, front, key, before);
      hide WindowsOk, Reflects;
      ExtendKeeps(ttl, After(ttl, front), Windows(ttl, front, key), key, before, c);
    }
  }

  /** An INCR is answered with its place in the window it falls into. */
  lemma AnswerIsPlace(ttl: nat, cs: seq<Command>, key: Key, now: int)
    requires cs != [] && Timed(cs) && cs[|cs| - 1] == Incr(key, now)
    ensures var ws := Windows(ttl, cs, key);
            && ws != [] && AnswerAt(ttl, cs, |cs| - 1) == |ws[|ws| - 1].times|
            && ws[|ws| - 1].times[|ws[|ws| - 1].times| - 1] == now
  {
    var front := cs[..|cs| - 1];
    var before := if front == [] then now else front[|front| - 1].at;
    WindowsHold(ttl, front, key, before);
    hide WindowsOk, After, Windows;
    PlaceStep(ttl, After(ttl, front), Windows(ttl, front, key), key, before, now);
    WindowsLast(ttl, cs, key);
  }

  lemma WindowsLast(ttl: nat, cs: seq<Command>, key: Key)
    requires cs != []
    ensures Windows(ttl, cs, key) ==
            Extend(ttl, After(ttl, cs[..|cs| - 1]), Windows(ttl, cs[..|cs| - 1], key), key, cs[|cs| - 1])
  {
  }

  lemma PlaceStep(ttl: nat, s: Store, ws: seq<Window>, key: Key, before: int, now: int)
    requires Reflects(ttl, s, key, ws, before)
    ensures var ws' := Extend(ttl, s, ws, key, Incr(key, now));
            && ws' != [] && Answer(s, key, now) == |ws'[|ws'| - 1].times|
            && ws'[|ws'| - 1].times[|ws'[|ws'| - 1].times| - 1] == now
  {
  }

  /** Every window up to the `j`th, opener to opener, takes more than a lifetime; so does what follows a member of one. */
  lemma {:induction false} WindowsSpaced(ttl: nat, ws: seq<Window>, i: nat, j: nat, k: nat)
    requires WindowsOk(ttl, ws) && i < j < |ws| && k < |ws[i].times|
    ensures WindowOk(ttl, ws[i]) && WindowOk(ttl, ws[j])
    ensures ws[i].times[k] + (ttl + 1) * (j - i - 1) < ws[j].times[0]
    ensures ws[i].times[0] + (ttl + 1) * (j - i) <= ws[j].times[0]
    decreases j
  {
    assert WindowOk(ttl, ws[i]);
    assert WindowOk(ttl, ws[j - 1]);
    assert ws[j - 1].times[0] + ttl + 1 <= ws[j].times[0];
    if j == i + 1 {
      assert (ttl + 1) * (j - i - 1) == 0;
    } else {
      WindowsSpaced(ttl, ws, i, j - 1, k);
      assert (ttl + 1) * (j - i - 1) == (ttl + 1) * (j - 1 - i - 1) + ttl + 1;
      assert (ttl + 1) * (j - i) == (ttl + 1) * (j - 1 - i) + ttl + 1;
    }
  }
}
