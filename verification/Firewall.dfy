/**
 A guest's firewall: ProxVM inserts stamped rules at the top of the chain, deletes stamped rules
 by position, and rebuilds or removes its own block; everything else in the chain is hand-made.
 Each request is a row of separate calls to Proxmox, and any of them may be the one that fails.
 */
module Firewall {
  import opened Common
  import opened Calls
  import opened Filtering

  datatype Rule = Rule(body: string, comment: Option<string>)

  const PROXVM_RULE_COMMENT := "proxvm-isolation"

  /** `isProxvmRule`: the comment starts with the stamp. */
  predicate Stamped(r: Rule) {
    r.comment.Some? && PROXVM_RULE_COMMENT <= r.comment.value
  }

  predicate HandMade(r: Rule) {
    !Stamped(r)
  }

  function HandMadeOf(rules: seq<Rule>): seq<Rule> {
    Kept(rules, HandMade)
  }

  /** What a custom rule is stored with; `comment` is the caller's, trimmed. */
  function Stamp(body: string, comment: string): Rule {
    if comment == "" then Rule(body, Some(PROXVM_RULE_COMMENT))
    else Rule(body, Some(PROXVM_RULE_COMMENT + ": " + if |comment| <= 80 then comment else comment[..80]))
  }

  /** A custom rule is labelled with the stamp alone, or with the stamp and at most eighty characters of the comment. */
  lemma LabelledStamp(body: string, comment: string)
    ensures Stamp(body, comment) ==
            Rule(body, Some(if |comment| == 0 then "proxvm-isolation" else "proxvm-isolation: " + comment[..if |comment| < 80 then |comment| else 80]))
  {
    assert comment[..|comment|] == comment;
    assert PROXVM_RULE_COMMENT + ": " == "proxvm-isolation: ";
  }

  lemma StampIsStamped(body: string, comment: string)
    ensures Stamped(Stamp(body, comment))
  {
  }

  /** The rules ProxVM builds are all its own. */
  type Block = b: seq<Rule> | forall i :: 0 <= i < |b| ==> Stamped(b[i])

  /** The chain, and whether the policies drop what no rule accepts. */
  datatype Guest = Guest(rules: seq<Rule>, dropping: bool)

  datatype Reply = Done | Invalid | NotFound | Failed

  /**
   A request with what becomes of its calls. The last two make a row of writes, of which the first
   `budget` are answered; `applied` says whether the next one takes effect although it fails.
   */
  datatype Request =
    | AddRule(body: string, comment: string, write: Fate)
    | DeleteRule(pos: int, listed: bool, write: Fate)
    | Isolate(built: Block, budget: nat, applied: bool)
    | Open(budget: nat, applied: bool)

  function Answer(write: Fate): Reply {
    if write.Answered? then Done else Failed
  }

  function Stale(rules: seq<Rule>): nat {
    |Positions(rules, Stamped)|
  }

  function Verdict(g: Guest, q: Request): Reply {
    match q
    case AddRule(_, _, write) => Answer(write)
    case DeleteRule(pos, listed, write) =>
      if pos < 0 then Invalid
      else if !listed then Failed
      else if pos >= |g.rules| then NotFound
      else if !Stamped(g.rules[pos]) then Invalid
      else Answer(write)
    case Isolate(built, budget, _) => if Stale(g.rules) + |built| + 1 <= budget then Done else Failed
    case Open(budget, _) => if 1 + Stale(g.rules) <= budget then Done else Failed
  }

  function Without<T>(s: seq<T>, pos: nat): seq<T>
    requires pos < |s|
  {
    s[..pos] + s[pos + 1..]
  }

  /** Writes that take effect. */
  function Effective(budget: nat, applied: bool): nat {
    if applied then budget + 1 else budget
  }

  /** Where the chain is already clean once the stamped rules from the `k`th on are gone. */
  function Clean(rules: seq<Rule>, k: nat): (from: nat)
    requires k <= Stale(rules)
    ensures from <= |rules|
  {
    if k == 0 then 0
    else
      PositionIsStamped(rules, k - 1);
      Positions(rules, Stamped)[k - 1] + 1
  }

  /** The chain without its stamped rules from the `k`th on. */
  function Cleaned(rules: seq<Rule>, k: nat): seq<Rule>
    requires k <= Stale(rules)
  {
    rules[..Clean(rules, k)] + HandMadeOf(rules[Clean(rules, k)..])
  }

  /** The chain without its last `writes` stamped rules. */
  function Thinned(rules: seq<Rule>, writes: nat): seq<Rule> {
    Cleaned(rules, if writes < Stale(rules) then Stale(rules) - writes else 0)
  }

  /** The last `writes` rules of a block. */
  function Bottom(built: seq<Rule>, writes: nat): seq<Rule> {
    if writes < |built| then built[|built| - writes..] else built
  }

  /** The chain when a rebuild has got `writes` writes far: deletions first, then the block from its bottom up. */
  function Rebuilt(rules: seq<Rule>, built: seq<Rule>, writes: nat): seq<Rule> {
    if writes < Stale(rules) then Thinned(rules, writes) else Bottom(built, writes - Stale(rules)) + HandMadeOf(rules)
  }

  /** Isolating closes the policies last; opening opens them first. */
  function Step(g: Guest, q: Request): Guest {
    match q
    case AddRule(body, comment, write) => if write.Lost? then g else g.(rules := [Stamp(body, comment)] + g.rules)
    case DeleteRule(pos, listed, write) =>
      if Verdict(g, DeleteRule(pos, listed, Answered)).Done? && !write.Lost? then g.(rules := Without(g.rules, pos)) else g
    case Isolate(built, budget, applied) =>
      var writes := Effective(budget, applied);
      Guest(Rebuilt(g.rules, built, writes), g.dropping || writes > Stale(g.rules) + |built|)
    case Open(budget, applied) =>
      var writes := Effective(budget, applied);
      if writes == 0 then g else Guest(Thinned(g.rules, writes - 1), false)
  }

  function Run(g: Guest, qs: seq<Request>): Guest
    decreases |qs|
  {
    if qs == [] then g else Run(Step(g, qs[0]), qs[1..])
  }

  // -- Conservation -------------------------------------------------------------------

  lemma DropConserves(rules: seq<Rule>, pos: nat)
    requires pos < |rules| && Stamped(rules[pos])
    ensures HandMadeOf(Without(rules, pos)) == HandMadeOf(rules)
  {
    var before, dropped, rest := rules[..pos], [rules[pos]], rules[pos + 1..];
    assert rules == before + (dropped + rest);
    KeptAppend(before, rest, HandMade);
    KeptAppend(before, dropped + rest, HandMade);
    KeptAppend(dropped, rest, HandMade);
    NoneKept(dropped, HandMade);
    hide Kept;
  }

  lemma InsertConserves(rules: seq<Rule>, r: Rule)
    requires Stamped(r)
    ensures HandMadeOf([r] + rules) == HandMadeOf(rules)
  {
    KeptAppend([r], rules, HandMade);
    NoneKept([r], HandMade);
  }

  lemma HandMadeTwice(rules: seq<Rule>)
    ensures HandMadeOf(HandMadeOf(rules)) == HandMadeOf(rules)
  {
    forall i | 0 <= i < |HandMadeOf(rules)| ensures HandMade(HandMadeOf(rules)[i]) {
      KeptMembers(rules, HandMade, HandMadeOf(rules)[i]);
    }
    AllKept(HandMadeOf(rules), HandMade);
  }

  lemma CleanedConserves(rules: seq<Rule>, k: nat)
    requires k <= Stale(rules)
    ensures HandMadeOf(Cleaned(rules, k)) == HandMadeOf(rules)
  {
    var from := Clean(rules, k);
    KeptAppend(rules[..from], rules[from..], HandMade);
    KeptAppend(rules[..from], HandMadeOf(rules[from..]), HandMade);
    HandMadeTwice(rules[from..]);
    hide Kept, Clean;
    assert rules == rules[..from] + rules[from..];
  }

  lemma ThinnedConserves(rules: seq<Rule>, writes: nat)
    ensures HandMadeOf(Thinned(rules, writes)) == HandMadeOf(rules)
  {
    hide Cleaned, HandMadeOf;
    CleanedConserves(rules, if writes < Stale(rules) then Stale(rules) - writes else 0);
  }

  lemma BlockConserves(rules: seq<Rule>, block: seq<Rule>)
    requires forall i :: 0 <= i < |block| ==> Stamped(block[i])
    ensures HandMadeOf(block + HandMadeOf(rules)) == HandMadeOf(rules)
  {
    KeptAppend(block, HandMadeOf(rules), HandMade);
    NoneKept(block, HandMade);
    HandMadeTwice(rules);
  }

  lemma BottomIsStamped(built: Block, writes: nat)
    ensures forall i :: 0 <= i < |Bottom(built, writes)| ==> Stamped(Bottom(built, writes)[i])
  {
  }

  lemma StepConserves(g: Guest, q: Request)
    ensures HandMadeOf(Step(g, q).rules) == HandMadeOf(g.rules)
  {
    hide HandMadeOf, Thinned, Bottom;
    match q {
      case AddRule(body, comment, _) =>
        StampIsStamped(body, comment);
        InsertConserves(g.rules, Stamp(body, comment));
      case DeleteRule(pos, listed, _) =>
        if Verdict(g, DeleteRule(pos, listed, Answered)).Done? { DropConserves(g.rules, pos); }
      case Isolate(built, budget, applied) =>
        var writes := Effective(budget, applied);
        if writes < Stale(g.rules) {
          ThinnedConserves(g.rules, writes);
        } else {
          BottomIsStamped(built, writes - Stale(g.rules));
          BlockConserves(g.rules, Bottom(built, writes - Stale(g.rules)));
        }
      case Open(budget, applied) =>
        if Effective(budget, applied) > 0 { ThinnedConserves(g.rules, Effective(budget, applied) - 1); }
    }
  }

  /**
   Every run of rule requests, isolations and openings leaves the hand-made rules as they were, in
   content and order, whichever calls fail.
   */
  lemma {:induction false} RunConserves(g: Guest, qs: seq<Request>)
    ensures HandMadeOf(Run(g, qs).rules) == HandMadeOf(g.rules)
    decreases |qs|
  {
    if qs != [] {
      hide HandMadeOf, Step;
      StepConserves(g, qs[0]);
      RunConserves(Step(g, qs[0]), qs[1..]);
    }
  }

  // -- Failing open ---------------------------------------------------------------------

  /** After this isolation request the guest is as it was, its policies are open, or the chain is the one a finished request leaves. */
  ghost predicate SafelyLeft(g: Guest, built: Block, budget: nat, applied: bool) {
    var after := Step(g, Isolate(built, budget, applied));
    after == g || (after.dropping ==> after.rules == built + HandMadeOf(g.rules))
  }

  /**
   "Failing open" holds exactly for a guest whose policies are open, or with at most one rule to write:
   on a guest that is already isolated the old block goes first, behind closed policies.
   */
  lemma FailsOpen(g: Guest, built: Block)
    ensures (forall budget, applied :: SafelyLeft(g, built, budget, applied)) <==> !g.dropping || Stale(g.rules) + |built| <= 1
  {
    var stale := Stale(g.rules);
    if g.dropping && stale + |built| > 1 {
      StoppedHalfway(g, built);
    } else {
      forall budget: nat, applied ensures SafelyLeft(g, built, budget, applied) { SafeAnyway(g, built, budget, applied); }
    }
  }

  lemma SafeAnyway(g: Guest, built: Block, budget: nat, applied: bool)
    requires !g.dropping || Stale(g.rules) + |built| <= 1
    ensures SafelyLeft(g, built, budget, applied)
  {
    var writes := Effective(budget, applied);
    StartsUncleaned(g.rules);
    if Stale(g.rules) == 0 { NothingStale(g.rules); }
    hide Thinned, HandMadeOf, Stale;
    if writes >= Stale(g.rules) + |built| {
      assert Rebuilt(g.rules, built, writes) == built + HandMadeOf(g.rules);
    } else if g.dropping && Stale(g.rules) == 0 {
      assert Bottom(built, 0) == [];
      assert [] + HandMadeOf(g.rules) == g.rules;
    }
  }

  lemma NothingStale(rules: seq<Rule>)
    requires Stale(rules) == 0
    ensures HandMadeOf(rules) == rules
  {
    StartsUncleaned(rules);
    EndsClean(rules, 0);
  }

  /** With policies closed and two writes ahead, stopping in between loses the old chain before the new one is there. */
  lemma StoppedHalfway(g: Guest, built: Block)
    requires g.dropping && Stale(g.rules) + |built| > 1
    ensures exists budget, applied :: !SafelyLeft(g, built, budget, applied)
  {
    var stale := Stale(g.rules);
    if built == [] {
      LastGoesFirst(g.rules);
      assert Rebuilt(g.rules, built, 1) == Thinned(g.rules, 1);
      assert !SafelyLeft(g, built, 1, false);
    } else if stale == 0 {
      NothingStale(g.rules);
      hide HandMadeOf;
      assert Rebuilt(g.rules, built, 1) == built[|built| - 1..] + HandMadeOf(g.rules);
      assert !SafelyLeft(g, built, 1, false);
    } else {
      StampedIsDropped(g.rules);
      hide HandMadeOf;
      assert Rebuilt(g.rules, built, stale) == HandMadeOf(g.rules);
      assert |built + HandMadeOf(g.rules)| > |HandMadeOf(g.rules)|;
      assert !SafelyLeft(g, built, stale, false);
    }
  }

  /** One deletion of several changes the chain and leaves a stamped rule in it. */
  lemma LastGoesFirst(rules: seq<Rule>)
    requires Stale(rules) > 1
    ensures Thinned(rules, 1) != rules && Thinned(rules, 1) != HandMadeOf(rules)
  {
    var k := Stale(rules);
    StartsUncleaned(rules);
    DropLast(rules, k);
    DropLast(rules, k - 1);
    hide Cleaned, Stamped, Positions;
    var once, p := Thinned(rules, 1), Positions(rules, Stamped)[k - 2];
    assert once == Cleaned(rules, k - 1) && Stamped(once[p]);
    KeptMembers(rules, HandMade, once[p]);
    assert once[p] in once;
  }

  /** Opening never leaves closed policies behind, unless its first write is lost; and it only deletes. */
  lemma OpensFirst(g: Guest, budget: nat, applied: bool)
    ensures var after := Step(g, Open(budget, applied));
            && (after.dropping <==> g.dropping && budget == 0 && !applied)
            && |after.rules| <= |g.rules|
  {
    hide HandMadeOf;
    var writes := Effective(budget, applied);
    if writes > 0 { ThinnedShrinks(g.rules, writes - 1); }
  }

  lemma ThinnedShrinks(rules: seq<Rule>, writes: nat)
    ensures |Thinned(rules, writes)| <= |rules|
  {
    var from := Clean(rules, if writes < Stale(rules) then Stale(rules) - writes else 0);
    KeptIsNoLonger(rules[from..], HandMade);
  }

  lemma StampedIsDropped(rules: seq<Rule>)
    requires Stale(rules) > 0
    ensures HandMadeOf(rules) != rules
  {
    PositionIsStamped(rules, 0);
    var r := rules[Positions(rules, Stamped)[0]];
    KeptMembers(rules, HandMade, r);
    assert r in rules;
  }

  // -- The block as a whole ------------------------------------------------------------

  lemma PositionIsStamped(rules: seq<Rule>, k: nat)
    requires k < |Positions(rules, Stamped)|
    ensures Positions(rules, Stamped)[k] < |rules| && Stamped(rules[Positions(rules, Stamped)[k]])
  {
    var at := Positions(rules, Stamped);
    assert at[k] in at;
    PositionsComplete(rules, Stamped, at[k]);
  }

  /** Between two stamped positions, and past the last one, the chain is hand-made. */
  lemma StretchIsHandMade(rules: seq<Rule>, k: nat)
    requires k <= |Positions(rules, Stamped)|
    ensures var hi := if k == |Positions(rules, Stamped)| then |rules| else Positions(rules, Stamped)[k];
            Clean(rules, k) <= hi <= |rules| && HandMadeOf(rules[Clean(rules, k)..hi]) == rules[Clean(rules, k)..hi]
  {
    var at := Positions(rules, Stamped);
    var lo := Clean(rules, k);
    var hi := if k == |at| then |rules| else at[k];
    if k > 0 {
      PositionIsStamped(rules, k - 1);
      if k < |at| { PositionsIncrease(rules, Stamped, k - 1, k); }
    }
    if k < |at| { PositionIsStamped(rules, k); }
    forall i | lo <= i < hi ensures HandMade(rules[i]) { NoPositionBetween(rules, k, i); }
    AllKept(rules[lo..hi], HandMade);
  }

  lemma Assemble(rules: seq<Rule>, m: nat, p: nat)
    requires m <= p < |rules| && HandMadeOf(rules[m..p]) == rules[m..p] && Stamped(rules[p])
    ensures rules[..p] + HandMadeOf(rules[p + 1..]) == rules[..m] + HandMadeOf(rules[m..])
  {
    var middle, last, rest := rules[m..p], [rules[p]], rules[p + 1..];
    assert rules[m..] == middle + (last + rest);
    KeptAppend(middle, last + rest, HandMade);
    KeptAppend(last, rest, HandMade);
    NoneKept(last, HandMade);
    assert rules[..p] == rules[..m] + middle;
    hide Kept;
    assert HandMadeOf(rules[m..]) == middle + HandMadeOf(rest);
  }

  lemma StartsUncleaned(rules: seq<Rule>)
    ensures Thinned(rules, 0) == rules
  {
    var n := Stale(rules);
    StretchIsHandMade(rules, n);
    hide HandMadeOf;
    assert rules[Clean(rules, n)..|rules|] == rules[Clean(rules, n)..];
    assert rules == rules[..Clean(rules, n)] + rules[Clean(rules, n)..];
  }

  lemma EndsClean(rules: seq<Rule>, writes: nat)
    requires writes >= Stale(rules)
    ensures Thinned(rules, writes) == HandMadeOf(rules)
  {
    hide HandMadeOf;
    assert rules[0..] == rules;
  }

  lemma CutLast<T>(s: seq<T>, tail: seq<T>, p: nat)
    requires p < |s|
    ensures var whole := s[..p + 1] + tail; whole[p] == s[p] && Without(whole, p) == s[..p] + tail
  {
  }

  /** With the stamped rules past the `k`th gone, the `k`th is still where it was. */
  lemma DropLast(was: seq<Rule>, k: nat)
    requires 0 < k <= Stale(was)
    ensures var p, rules := Positions(was, Stamped)[k - 1], Cleaned(was, k);
            p < |rules| && Stamped(rules[p]) && Cleaned(was, k - 1) == Without(rules, p)
  {
    hide HandMadeOf, Stamped, Positions;
    var p := Positions(was, Stamped)[k - 1];
    PositionIsStamped(was, k - 1);
    StretchIsHandMade(was, k - 1);
    Assemble(was, Clean(was, k - 1), p);
    CutLast(was, HandMadeOf(was[p + 1..]), p);
    hide Clean, Without;
  }

  lemma NoPositionBetween(rules: seq<Rule>, k: nat, i: nat)
    requires var at := Positions(rules, Stamped); k <= |at| && i < |rules| && (k > 0 ==> at[k - 1] < i) && (k < |at| ==> i < at[k])
    ensures !Stamped(rules[i])
  {
    var at := Positions(rules, Stamped);
    PositionsComplete(rules, Stamped, i);
    if i in at {
      var j :| 0 <= j < |at| && at[j] == i;
      if j < k - 1 { PositionsIncrease(rules, Stamped, j, k - 1); }
      if k < j { PositionsIncrease(rules, Stamped, k, j); }
    }
  }

  lemma BottomNext(built: seq<Rule>, writes: nat)
    requires writes < |built|
    ensures Bottom(built, writes + 1) == [built[|built| - writes - 1]] + Bottom(built, writes)
  {
    var next := |built| - writes - 1;
    assert built[next..] == [built[next]] + built[next + 1..];
  }

  /** How far an isolation request gets: into the old block, into the new one, or through. */
  lemma RebuildStages(g: Guest, built: Block, budget: nat, applied: bool)
    ensures var after, stale, writes := Step(g, Isolate(built, budget, applied)), Stale(g.rules), Effective(budget, applied);
            && (budget < stale ==> after == Guest(Thinned(g.rules, writes), g.dropping))
            && (stale <= budget ==> after.rules == Bottom(built, writes - stale) + HandMadeOf(g.rules))
            && (stale <= budget ==> after.dropping == (g.dropping || writes > stale + |built|))
            && (stale + |built| <= budget ==> after.rules == built + HandMadeOf(g.rules))
  {
    var stale, writes := Stale(g.rules), Effective(budget, applied);
    EndsClean(g.rules, stale);
    assert Bottom(built, 0) == [];
    hide Thinned, HandMadeOf, Stale;
    if writes == stale { assert Bottom(built, 0) + HandMadeOf(g.rules) == HandMadeOf(g.rules); }
  }

  /** One guest's chain and policies. */
  class Chain {
    var rules: seq<Rule>
    var dropping: bool

    ghost function View(): Guest
      reads this
    {
      Guest(rules, dropping)
    }

    method Add(body: string, comment: string, write: Fate) returns (reply: Reply)
      modifies `rules
      ensures View() == Step(old(View()), AddRule(body, comment, write)) && reply == Answer(write)
      ensures reply == Done <==> write == Answered
      ensures write == Lost ==> rules == old(rules)
      ensures write != Lost ==>
        rules == [Rule(body, Some(if |comment| == 0 then "proxvm-isolation" else "proxvm-isolation: " + comment[..if |comment| < 80 then |comment| else 80]))] + old(rules)
    {
      LabelledStamp(body, comment);
      if write.Lost? { return Failed; }
      rules := [Stamp(body, comment)] + rules;
      return Answer(write);
    }

    method Delete(pos: int, listed: bool, write: Fate) returns (reply: Reply)
      modifies `rules
      ensures View() == Step(old(View()), DeleteRule(pos, listed, write)) && reply == Verdict(old(View()), DeleteRule(pos, listed, write))
      ensures reply == Done ==> 0 <= pos < |old(rules)| && rules == old(rules)[..pos] + old(rules)[pos + 1..]
      ensures reply == Done ==> old(rules)[pos].comment.Some? && "proxvm-isolation" <= old(rules)[pos].comment.value
      ensures 0 <= pos < |old(rules)| && listed && write == Answered ==>
        (reply == Done <==> old(rules)[pos].comment.Some? && "proxvm-isolation" <= old(rules)[pos].comment.value)
      ensures reply == NotFound <==> listed && pos >= |old(rules)|
      ensures reply == Invalid || reply == NotFound || (reply == Failed && write == Lost) ==> rules == old(rules)
    {
      if pos < 0 { return Invalid; }
      if !listed { return Failed; }
      if pos >= |rules| { return NotFound; }
      if !Stamped(rules[pos]) { return Invalid; }
      if write.Lost? { return Failed; }
      rules := rules[..pos] + rules[pos + 1..];
      return Answer(write);
    }

    /** Delete the stamped rules from the bottom up, so that no deletion moves one still to come. */
    method DeleteStamped(budget: nat, applied: bool) returns (ok: bool)
      modifies `rules
      ensures rules == Thinned(old(rules), Effective(budget, applied))
      ensures ok ==> rules == HandMadeOf(old(rules))
      ensures ok <==> Stale(old(rules)) <= budget
    {
      var at := Positions(rules, Stamped);
      ghost var was := rules;
      StartsUncleaned(was);
      hide Cleaned, HandMadeOf, Stamped, Positions;
      var k := |at|;
      while k > 0
        invariant 0 <= k <= |at| && |at| - k <= budget
        invariant rules == Cleaned(was, k)
      {
        DropLast(was, k);
        k := k - 1;
        var failing := |at| - k > budget;
        if failing && !applied { return false; }
        rules := rules[..at[k]] + rules[at[k] + 1..];
        if failing { return false; }
      }
      EndsClean(was, |at|);
      EndsClean(was, Effective(budget, applied));
      return true;
    }

    /** Insert the block last first, each rule at the top. */
    method InsertBlock(built: seq<Rule>, budget: nat, applied: bool) returns (ok: bool)
      modifies `rules
      ensures rules == Bottom(built, Effective(budget, applied)) + old(rules)
      ensures ok <==> |built| <= budget
    {
      var done := 0;
      assert Bottom(built, 0) == [];
      assert forall writes :: writes >= |built| ==> Bottom(built, writes) == built;
      hide Stamped, Bottom;
      while done < |built|
        invariant 0 <= done <= |built| && done <= budget
        invariant rules == Bottom(built, done) + old(rules)
      {
        if done == budget && !applied { return false; }
        BottomNext(built, done);
        rules := [built[|built| - done - 1]] + rules;
        if done == budget { return false; }
        done := done + 1;
      }
      return true;
    }

    /** Delete the old block, insert the new one, and only then close the policies. */
    method ApplyIsolation(built: Block, budget: nat, applied: bool) returns (ok: bool)
      modifies this
      ensures View() == Step(old(View()), Isolate(built, budget, applied))
      ensures HandMadeOf(rules) == HandMadeOf(old(rules))
      ensures ok ==> rules == built + HandMadeOf(old(rules)) && dropping
      ensures ok <==> |Positions(old(rules), Stamped)| + |built| + 1 <= budget
      ensures ok <==> Verdict(old(View()), Isolate(built, budget, applied)).Done?
    {
      StepConserves(View(), Isolate(built, budget, applied));
      RebuildStages(View(), built, budget, applied);
      var stale := |Positions(rules, Stamped)|;
      hide Step, Thinned, Bottom, HandMadeOf, Stamped, Positions;
      ok := DeleteStamped(budget, applied);
      if !ok { return; }
      ok := InsertBlock(built, budget - stale, applied);
      if !ok { return; }
      if budget == stale + |built| && !applied { return false; }
      dropping := true;
      return budget > stale + |built|;
    }

    /** Open the policies first, then delete the block. */
    method RemoveIsolation(budget: nat, applied: bool) returns (ok: bool)
      modifies this
      ensures View() == Step(old(View()), Open(budget, applied))
      ensures HandMadeOf(rules) == HandMadeOf(old(rules))
      ensures ok ==> rules == HandMadeOf(old(rules)) && !dropping
      ensures ok <==> 1 + |Positions(old(rules), Stamped)| <= budget
      ensures ok <==> Verdict(old(View()), Open(budget, applied)).Done?
    {
      StepConserves(View(), Open(budget, applied));
      StartsUncleaned(rules);
      hide HandMadeOf, Thinned;
      if budget == 0 && !applied { return false; }
      dropping := false;
      if budget == 0 { return false; }
      ok := DeleteStamped(budget - 1, applied);
    }
  }

  /** Applying is idempotent, and removing after applying gives what removing alone gives. */
  lemma ReapplyAndRemove(rules: seq<Rule>, built: Block)
    ensures var applied := built + HandMadeOf(rules);
            && built + HandMadeOf(applied) == applied
            && HandMadeOf(applied) == HandMadeOf(rules)
  {
    BlockConserves(rules, built);
  }
}
