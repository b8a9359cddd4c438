/** The per-request permission memo of the auth plugin, under a database that may change between checks. */
module Memo {
  import opened Common
  import opened Iam

  /** `hasPermission` on the roles loaded with the session: the hardcoded sets only. */
  predicate ByRoles(roles: set<Kind>, p: Permission) {
    p.Known? && exists kind :: kind in roles && BuiltInGrants(kind, p.code)
  }

  predicate AnyByRoles(roles: set<Kind>, wanted: seq<Permission>) {
    exists i :: 0 <= i < |wanted| && ByRoles(roles, wanted[i])
  }

  /** One check of the request: the OR-list it asks for, and what the database would resolve to at that moment. */
  datatype Check = Check(wanted: seq<Permission>, effective: set<Permission>)

  /** Whether the check goes to the database: some wanted permission is unknown or remembered as missing. */
  predicate Resolves(roles: set<Kind>, cache: map<Permission, bool>, c: Check) {
    !AnyByRoles(roles, c.wanted) && exists i :: 0 <= i < |c.wanted| && !Remembered(cache, c.wanted[i])
  }

  predicate Remembered(cache: map<Permission, bool>, p: Permission) {
    p in cache && cache[p]
  }

  /** Every wanted permission that is not remembered as held is looked up anew. */
  function Refreshed(roles: set<Kind>, cache: map<Permission, bool>, c: Check): map<Permission, bool> {
    if AnyByRoles(roles, c.wanted) then cache
    else cache + map p | p in c.wanted && !Remembered(cache, p) :: p in c.effective
  }

  predicate Allowed(roles: set<Kind>, cache: map<Permission, bool>, c: Check) {
    AnyByRoles(roles, c.wanted) || exists i :: 0 <= i < |c.wanted| && Remembered(Refreshed(roles, cache, c), c.wanted[i])
  }

  /** The memo before the `n`th check of a request. */
  function CacheBefore(roles: set<Kind>, checks: seq<Check>, n: nat): map<Permission, bool>
    requires n <= |checks|
  {
    if n == 0 then map[] else Refreshed(roles, CacheBefore(roles, checks, n - 1), checks[n - 1])
  }

  predicate Decision(roles: set<Kind>, checks: seq<Check>, n: nat)
    requires n < |checks|
  {
    Allowed(roles, CacheBefore(roles, checks, n), checks[n])
  }

  predicate ResolvedAt(roles: set<Kind>, checks: seq<Check>, n: nat)
    requires n < |checks|
  {
    Resolves(roles, CacheBefore(roles, checks, n), checks[n])
  }

  /** What the check would say with no memo. */
  predicate Uncached(roles: set<Kind>, c: Check) {
    exists i :: 0 <= i < |c.wanted| && (ByRoles(roles, c.wanted[i]) || c.wanted[i] in c.effective)
  }

  // -- Soundness over the checks of one request ------------------------------------------

  /** What the memo remembers as held was resolved as held by an earlier check of the same request. */
  lemma {:induction false} RememberedWasResolved(roles: set<Kind>, checks: seq<Check>, n: nat, p: Permission) returns (at: nat)
    requires n <= |checks| && Remembered(CacheBefore(roles, checks, n), p)
    ensures at < n && ResolvedAt(roles, checks, at) && p in checks[at].wanted && p in checks[at].effective
    decreases n
  {
    hide AnyByRoles;
    if Remembered(CacheBefore(roles, checks, n - 1), p) {
      at := RememberedWasResolved(roles, checks, n - 1, p);
    } else {
      at := n - 1;
      assert p in checks[at].wanted;
      var i :| 0 <= i < |checks[at].wanted| && checks[at].wanted[i] == p;
      assert !Remembered(CacheBefore(roles, checks, at), checks[at].wanted[i]);
    }
  }

  /** Every allow is backed by a role, or by a resolution at this check or earlier in the request. */
  lemma AllowsAreJustified(roles: set<Kind>, checks: seq<Check>, n: nat)
    requires n < |checks| && Decision(roles, checks, n)
    ensures AnyByRoles(roles, checks[n].wanted) ||
            exists p, at :: p in checks[n].wanted && 0 <= at <= n && ResolvedAt(roles, checks, at) && p in checks[at].effective
  {
    if !AnyByRoles(roles, checks[n].wanted) {
      hide AnyByRoles, Refreshed, ResolvedAt;
      var i :| 0 <= i < |checks[n].wanted| &&
               Remembered(Refreshed(roles, CacheBefore(roles, checks, n), checks[n]), checks[n].wanted[i]);
      var at := RememberedWasResolved(roles, checks, n + 1, checks[n].wanted[i]);
      assert checks[n].wanted[i] in checks[n].wanted && 0 <= at <= n;
    }
  }

  /** Every deny of a non-empty list is backed by a resolution at this very check that holds none of it. */
  lemma DeniesAreFresh(roles: set<Kind>, checks: seq<Check>, n: nat)
    requires n < |checks| && !Decision(roles, checks, n) && checks[n].wanted != []
    ensures ResolvedAt(roles, checks, n) && !Uncached(roles, checks[n])
  {
    var cache, c := CacheBefore(roles, checks, n), checks[n];
    forall i | 0 <= i < |c.wanted| ensures !Remembered(cache, c.wanted[i]) && c.wanted[i] !in c.effective {
      assert c.wanted[i] in c.wanted;
      assert !Remembered(Refreshed(roles, cache, c), c.wanted[i]);
    }
    assert !Remembered(cache, c.wanted[0]);
  }

  /** With nothing changing in between, the memo never changes a decision. */
  lemma FixedDatabaseSameDecision(roles: set<Kind>, checks: seq<Check>, n: nat, effective: set<Permission>)
    requires n < |checks| && forall k :: 0 <= k <= n ==> checks[k].effective == effective
    ensures Decision(roles, checks, n) <==> Uncached(roles, checks[n])
  {
    var c := checks[n];
    if Decision(roles, checks, n) {
      AllowsAreJustified(roles, checks, n);
      if !AnyByRoles(roles, c.wanted) {
        var p, at :| p in c.wanted && 0 <= at <= n && ResolvedAt(roles, checks, at) && p in checks[at].effective;
        var i :| 0 <= i < |c.wanted| && c.wanted[i] == p;
      } else {
        var i :| 0 <= i < |c.wanted| && ByRoles(roles, c.wanted[i]);
      }
    } else if c.wanted != [] {
      DeniesAreFresh(roles, checks, n);
    }
  }

  // -- The memo over the tables ------------------------------------------------------------

  /** The role names loaded with the session's account: its unexpired built-in roles. */
  function SessionRoles(db: Db, u: UserId): set<Kind> {
    set r | r in db.roles && HasRole(db, u, r) && db.roles[r].name.BuiltIn? :: db.roles[r].name.kind
  }

  lemma RolesAreHeld(db: Db, u: UserId, p: Permission)
    requires ByRoles(SessionRoles(db, u), p)
    ensures Holds(db, u, p)
  {
    var kind :| kind in SessionRoles(db, u) && BuiltInGrants(kind, p.code);
    var r :| r in db.roles && HasRole(db, u, r) && db.roles[r].name == BuiltIn(kind);
    assert LiveSource(db, u, p, ByRole(r));
  }

  /** Check `k` asks for `wanted[k]` and would resolve against the tables as they stand then. */
  function ChecksOver(dbs: seq<Db>, u: UserId, wanted: seq<seq<Permission>>): seq<Check>
    requires |dbs| == |wanted|
  {
    seq(|wanted|, k requires 0 <= k < |wanted| => Check(wanted[k], Effective(dbs[k], u)))
  }

  predicate HeldInRequest(start: Db, dbs: seq<Db>, u: UserId, n: nat, p: Permission)
    requires n < |dbs|
  {
    p in Effective(start, u) || exists at :: 0 <= at <= n && p in Effective(dbs[at], u)
  }

  /**
   With the tables changing under a request: what is allowed was held when the session was loaded
   or at some check of this request so far, and what is denied is not held now.
   */
  lemma MemoOverTables(start: Db, dbs: seq<Db>, u: UserId, wanted: seq<seq<Permission>>, n: nat)
    requires n < |dbs| == |wanted|
    ensures var allowed := Decision(SessionRoles(start, u), ChecksOver(dbs, u, wanted), n);
            && (allowed ==> exists i :: 0 <= i < |wanted[n]| && HeldInRequest(start, dbs, u, n, wanted[n][i]))
            && (!allowed ==> forall i :: 0 <= i < |wanted[n]| ==> !Holds(dbs[n], u, wanted[n][i]))
  {
    var roles, checks := SessionRoles(start, u), ChecksOver(dbs, u, wanted);
    hide SessionRoles, ResolvedAt;
    if Decision(roles, checks, n) {
      AllowsAreJustified(roles, checks, n);
      if AnyByRoles(roles, wanted[n]) {
        var i :| 0 <= i < |wanted[n]| && ByRoles(roles, wanted[n][i]);
        RolesAreHeld(start, u, wanted[n][i]);
        assert HeldInRequest(start, dbs, u, n, wanted[n][i]);
      } else {
        var p, at :| p in wanted[n] && 0 <= at <= n && ResolvedAt(roles, checks, at) && p in checks[at].effective;
        var i :| 0 <= i < |wanted[n]| && wanted[n][i] == p;
        assert HeldInRequest(start, dbs, u, n, wanted[n][i]);
      }
    } else if wanted[n] != [] {
      DeniesAreFresh(roles, checks, n);
    }
  }

  /** Over tables that stay as they are, a check passes exactly when one of the wanted permissions has a live source. */
  lemma MemoDecidesHolds(db: Db, dbs: seq<Db>, u: UserId, wanted: seq<seq<Permission>>, n: nat)
    requires n < |dbs| == |wanted| && forall k :: 0 <= k < |dbs| ==> dbs[k] == db
    ensures Decision(SessionRoles(db, u), ChecksOver(dbs, u, wanted), n) <==>
            exists i :: 0 <= i < |wanted[n]| && Holds(db, u, wanted[n][i])
  {
    MemoOverTables(db, dbs, u, wanted, n);
    hide Decision, ChecksOver, SessionRoles;
    if i :| 0 <= i < |wanted[n]| && HeldInRequest(db, dbs, u, n, wanted[n][i]) {
      assert Holds(db, u, wanted[n][i]);
    }
  }

  /** A request as the guards see it. */
  class Request {
    const user: bool
    const roles: set<Kind>
    var permCache: map<Permission, bool>
    ghost var checks: seq<Check>

    ghost predicate Valid()
      reads this
    {
      permCache == CacheBefore(roles, checks, |checks|)
    }

    constructor (user: bool, roles: set<Kind>)
      ensures Valid() && checks == [] && this.user == user && this.roles == roles
    {
      this.user, this.roles, permCache, checks := user, roles, map[], [];
    }

    /** Look up what the memo does not remember as held. */
    method Refresh(wanted: seq<Permission>, effective: set<Permission>)
      modifies `permCache
      ensures permCache == old(permCache) + map p | p in wanted && !Remembered(old(permCache), p) :: p in effective
    {
      var before := permCache;
      for i := 0 to |wanted|
        invariant permCache == before + map p | p in wanted[..i] && !Remembered(before, p) :: p in effective
      {
        assert wanted[..i + 1] == wanted[..i] + [wanted[i]];
        if !Remembered(before, wanted[i]) {
          permCache := permCache[wanted[i] := wanted[i] in effective];
        }
      }
      assert wanted[..|wanted|] == wanted;
    }

    /** `effective` stands for the resolution, which is used only when it is needed. */
    method RequirePermission(wanted: seq<Permission>, effective: set<Permission>) returns (denied: Option<Error>)
      requires Valid()
      modifies this
      ensures Valid()
      ensures !user ==> denied == Some(Unauthorized) && checks == old(checks)
      ensures user ==> checks == old(checks) + [Check(wanted, effective)]
      ensures user ==> denied == if Decision(roles, checks, |checks| - 1) then None else Some(Forbidden)
    {
      if !user { return Some(Unauthorized); }
      ghost var c := Check(wanted, effective);
      CachePrefix(roles, checks, c, |checks|);
      checks := checks + [c];
      if AnyByRoles(roles, wanted) { return None; }
      hide AnyByRoles, Remembered;
      Refresh(wanted, effective);
      assert permCache == CacheBefore(roles, checks, |checks|);
      if i :| 0 <= i < |wanted| && Remembered(permCache, wanted[i]) { return None; }
      return Some(Forbidden);
    }
  }

  lemma {:induction false} CachePrefix(roles: set<Kind>, checks: seq<Check>, c: Check, n: nat)
    requires n <= |checks|
    ensures CacheBefore(roles, checks + [c], n) == CacheBefore(roles, checks, n)
    decreases n
  {
    if n > 0 {
      hide Refreshed;
      CachePrefix(roles, checks, c, n - 1);
    }
  }
}
