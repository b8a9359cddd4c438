/** Small vocabulary shared by the other modules. */
module Common {

  datatype Option<+T> = None | Some(value: T)

  /** A grant row's optional expiry, on the clock the database calls NOW(). */
  type Expiry = Option<int>

  /** Strictly greater: a grant that expires exactly now is already dead. */
  predicate Live(expiry: Expiry, now: int) {
    expiry.None? || expiry.value > now
  }
}

/** What becomes of one call to a foreign service. */
module Calls {

  /** Answered, lost before it took effect, or carried out with the answer lost. */
  datatype Fate = Answered | Lost | Applied
}

/** Order-preserving filters: what a list handler should return, against its loop. */
module Filtering {

  function Kept<T>(s: seq<T>, keep: T -> bool): seq<T>
    decreases |s|
  {
    if s == [] then []
    else if keep(s[|s| - 1]) then Kept(s[..|s| - 1], keep) + [s[|s| - 1]]
    else Kept(s[..|s| - 1], keep)
  }

  lemma KeptStep<T>(s: seq<T>, i: nat, keep: T -> bool)
    requires i < |s|
    ensures Kept(s[..i + 1], keep) == if keep(s[i]) then Kept(s[..i], keep) + [s[i]] else Kept(s[..i], keep)
  {
    assert s[..i + 1][..i] == s[..i];
  }

  lemma {:induction false} KeptAppend<T>(a: seq<T>, b: seq<T>, keep: T -> bool)
    ensures Kept(a + b, keep) == Kept(a, keep) + Kept(b, keep)
    decreases |b|
  {
    if b == [] {
      assert a + b == a;
    } else {
      var last := |b| - 1;
      assert (a + b)[..|a + b| - 1] == a + b[..last];
      KeptAppend(a, b[..last], keep);
    }
  }

  lemma {:induction false} AllKept<T>(s: seq<T>, keep: T -> bool)
    requires forall i :: 0 <= i < |s| ==> keep(s[i])
    ensures Kept(s, keep) == s
    decreases |s|
  {
    if s != [] { AllKept(s[..|s| - 1], keep); }
  }

  lemma {:induction false} NoneKept<T>(s: seq<T>, keep: T -> bool)
    requires forall i :: 0 <= i < |s| ==> !keep(s[i])
    ensures Kept(s, keep) == []
    decreases |s|
  {
    if s != [] { NoneKept(s[..|s| - 1], keep); }
  }

  /** The admissible positions of `s`, in increasing order. */
  function Positions<T>(s: seq<T>, keep: T -> bool): seq<nat>
    decreases |s|
  {
    if s == [] then []
    else
      var last := |s| - 1;
      if keep(s[last]) then Positions(s[..last], keep) + [last] else Positions(s[..last], keep)
  }

  lemma {:induction false} PositionsComplete<T>(s: seq<T>, keep: T -> bool, i: nat)
    ensures i in Positions(s, keep) <==> i < |s| && keep(s[i])
    decreases |s|
  {
    if s != [] { PositionsComplete(s[..|s| - 1], keep, i); }
  }

  lemma {:induction false} PositionsIncrease<T>(s: seq<T>, keep: T -> bool, k: nat, l: nat)
    requires k < l < |Positions(s, keep)|
    ensures Positions(s, keep)[k] < Positions(s, keep)[l]
    decreases |s|
  {
    var front := s[..|s| - 1];
    if l < |Positions(front, keep)| {
      PositionsIncrease(front, keep, k, l);
    } else {
      assert Positions(front, keep)[k] in Positions(front, keep);
      PositionsComplete(front, keep, Positions(front, keep)[k]);
    }
  }

  /** `Kept` reads off exactly those positions, in their order. */
  lemma {:induction false} KeptPositions<T>(s: seq<T>, keep: T -> bool, k: nat)
    ensures |Kept(s, keep)| == |Positions(s, keep)|
    ensures k < |Kept(s, keep)| ==> Positions(s, keep)[k] < |s| && Kept(s, keep)[k] == s[Positions(s, keep)[k]]
    decreases |s|
  {
    if s != [] { KeptPositions(s[..|s| - 1], keep, k); }
  }

  lemma {:induction false} KeptIsNoLonger<T>(s: seq<T>, keep: T -> bool)
    ensures |Kept(s, keep)| <= |s|
    decreases |s|
  {
    if s != [] { KeptIsNoLonger(s[..|s| - 1], keep); }
  }

  lemma {:induction false} KeptMembers<T>(s: seq<T>, keep: T -> bool, x: T)
    ensures x in Kept(s, keep) <==> x in s && keep(x)
    decreases |s|
  {
    if s != [] {
      var last := |s| - 1;
      KeptMembers(s[..last], keep, x);
      assert s == s[..last] + [s[last]];
    }
  }
}

/** Counting how many of the first `n` times of a sequence fall into a closed interval. */
module Intervals {

  predicate Within(t: int, a: int, b: int) {
    a <= t <= b
  }

  function CountIn(ts: seq<int>, n: nat, a: int, b: int): nat
    requires n <= |ts|
  {
    if n == 0 then 0 else CountIn(ts, n - 1, a, b) + if Within(ts[n - 1], a, b) then 1 else 0
  }

  lemma {:induction false} CountPrefix(ts: seq<int>, us: seq<int>, n: nat, a: int, b: int)
    requires n <= |ts| && n <= |us| && ts[..n] == us[..n]
    ensures CountIn(ts, n, a, b) == CountIn(us, n, a, b)
  {
    if n > 0 {
      assert ts[n - 1] == ts[..n][n - 1] == us[n - 1];
      assert ts[..n - 1] == ts[..n][..n - 1] == us[..n - 1];
      CountPrefix(ts, us, n - 1, a, b);
    }
  }

  lemma {:induction false} CountBound(ts: seq<int>, n: nat, a: int, b: int)
    requires n <= |ts|
    ensures CountIn(ts, n, a, b) <= n
    ensures CountIn(ts, n, a, b) > 0 ==> exists k :: 0 <= k < n && Within(ts[k], a, b)
  {
    if n > 0 {
      CountBound(ts, n - 1, a, b);
    }
  }

  lemma {:induction false} CountSkipsFirst(ts: seq<int>, n: nat, a: int, b: int)
    requires 0 < n <= |ts| && !Within(ts[0], a, b)
    ensures CountIn(ts, n, a, b) <= n - 1
  {
    if n > 1 { CountSkipsFirst(ts, n - 1, a, b); } else { assert CountIn(ts, 0, a, b) == 0; }
  }

  lemma OneMoreGap(a: int, gap: nat, c: nat, earlier: int, later: int)
    requires c > 0 && a + gap * (c - 1) <= earlier && earlier + gap <= later
    ensures a + gap * c <= later
  {
    assert gap * (c - 1) + gap == gap * c;
  }

  /** Times at least `gap` apart: `c` of them need an interval of at least `gap * (c - 1)`. */
  lemma {:induction false} SpacedCount(ts: seq<int>, n: nat, gap: nat, a: int, b: int) returns (k: nat)
    requires n <= |ts| && a <= b && CountIn(ts, n, a, b) > 0
    requires forall i, j :: 0 <= i < j < n ==> ts[i] + gap <= ts[j]
    ensures k < n && Within(ts[k], a, b) && a + gap * (CountIn(ts, n, a, b) - 1) <= ts[k]
  {
    var c := CountIn(ts, n - 1, a, b);
    if !Within(ts[n - 1], a, b) {
      k := SpacedCount(ts, n - 1, gap, a, b);
    } else {
      k := n - 1;
      if c > 0 {
        var earlier := SpacedCount(ts, n - 1, gap, a, b);
        OneMoreGap(a, gap, c, ts[earlier], ts[k]);
      } else {
        assert gap * c == 0;
      }
    }
  }
}
