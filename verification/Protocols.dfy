/**
 Which protocols the index opens: for a pair of user and VM, exactly the allowed ones, until some
 step changes what is allowed and re-syncs nothing. Every condition is on the state before the step.
 */
module Protocols {
  import opened Common
  import opened Iam
  import opened Tables
  import opened Effects
  import opened Guac
  import opened Agreement

  ghost predicate Exact(s: State, u: UserId, v: VmId) {
    Entry(s.index, (u, v)) == Allowed(s.db, u, v)
  }

  /** What global protocol permissions make of an unscoped grant. */
  function ScopeOf(globals: set<Protocol>): set<Protocol> {
    if globals == {} then EVERY else globals
  }

  ghost function Scope(db: Db, u: UserId): set<Protocol> {
    ScopeOf(Globals(db, u))
  }

  lemma AllowedByScope(db: Db, u: UserId, v: VmId)
    ensures Allowed(db, u, v) == if Unscoped(db, u, v) then Scope(db, u) else set x: Protocol | Listed(db, u, v, x)
  {
    hide Unscoped, Listed, Globals;
  }

  // -- Requests -------------------------------------------------------------------------

  /** The global protocol permissions once the request is accepted. */
  ghost function GlobalsAfter(db: Db, req: Request, u: UserId): set<Protocol> {
    set x: Protocol | exists src :: SourceAfter(db, req, u, ProtocolCode(x), src)
  }

  lemma RequestGlobals(db: Db, actor: UserId, req: Request, u: UserId)
    requires WellFormed(db)
    ensures var out := Serve(db, actor, req);
            Globals(out.db, u) == if out.reply.Done? then GlobalsAfter(db, req, u) else Globals(db, u)
  {
    var out := Serve(db, actor, req);
    hide Serve, Holds, SourceAfter, WellFormed, ProtocolCode;
    forall x: Protocol
      ensures x in Globals(out.db, u) <==> if out.reply.Done? then x in GlobalsAfter(db, req, u) else x in Globals(db, u)
    {
      HoldsAfter(db, actor, req, u, ProtocolCode(x));
    }
  }

  lemma HoldsAfter(db: Db, actor: UserId, req: Request, u: UserId, p: Permission)
    requires WellFormed(db)
    ensures var out := Serve(db, actor, req);
            Holds(out.db, u, p) <==> if out.reply.Done? then exists src :: SourceAfter(db, req, u, p, src) else Holds(db, u, p)
  {
    var out := Serve(db, actor, req);
    hide Serve, SourceAfter, LiveSource, WellFormed;
    forall src
      ensures LiveSource(out.db, u, p, src) <==>
              if out.reply.Done? then SourceAfter(db, req, u, p, src) else LiveSource(db, u, p, src)
    {
      RequestEffect(db, actor, req, u, p, src);
    }
    if out.reply.Done? {
      assert Holds(out.db, u, p) <==> exists src :: SourceAfter(db, req, u, p, src);
    } else {
      assert Holds(out.db, u, p) <==> Holds(db, u, p);
    }
  }

  /** An accepted request changes what the user's unscoped grants open. */
  ghost predicate Rescopes(db: Db, actor: UserId, req: Request, u: UserId) {
    Serve(db, actor, req).reply.Done? && Scope(db, u) != ScopeOf(GlobalsAfter(db, req, u))
  }

  /**
   An exact pair that a request does not re-sync stays exact if and only if every live grant lists its
   protocols or the request, as accepted, leaves the scope of the global permissions alone.
   */
  lemma UntouchedProtocols(s: State, actor: UserId, req: Request, broken: Broken, u: UserId, v: VmId)
    requires WellFormed(s.db) && !req.ReqDeleteUser? && Exact(s, u, v)
    requires !ReSynced(s.db, actor, req, u, v)
    ensures Exact(Served(s, actor, req, broken), u, v) <==> !(Unscoped(s.db, u, v) && Rescopes(s.db, actor, req, u))
  {
    UntouchedByScope(s, actor, req, broken, u, v);
    RequestGlobals(s.db, actor, req, u);
    ServedTables(s, actor, req, broken);
    hide Serve, Served, Touched, Globals, GlobalsAfter, Unscoped, Exact, WellFormed;
  }

  lemma UntouchedByScope(s: State, actor: UserId, req: Request, broken: Broken, u: UserId, v: VmId)
    requires !req.ReqDeleteUser? && Exact(s, u, v)
    requires !ReSynced(s.db, actor, req, u, v)
    ensures var after := Served(s, actor, req, broken);
            Exact(after, u, v) <==> (Unscoped(s.db, u, v) ==> Scope(s.db, u) == Scope(after.db, u))
  {
    var after := Served(s, actor, req, broken);
    UntouchedPathsStay(s.db, actor, req, u, v);
    SamePathsSameAccess(s.db, after.db, u, v);
    hide Serve, Touched, SamePath, Globals, Listed, Unscoped;
    assert Entry(after.index, (u, v)) == Entry(s.index, (u, v));
  }

  /** A direct grant of one protocol is such a request: it narrows every unscoped grant of a user without global ones, and re-syncs nothing. */
  lemma DirectGrantRescopes(s: State, actor: UserId, u: UserId, v: VmId, x: Protocol, expires: Expiry, broken: Broken)
    requires WellFormed(s.db) && Exact(s, u, v) && Unscoped(s.db, u, v) && Globals(s.db, u) == {}
    requires GrantPermissionRefusal(s.db, actor, u, ProtocolCode(x), expires).None?
    ensures var after := Served(s, actor, ReqGrantPermission(u, ProtocolCode(x), expires), broken);
            Entry(after.index, (u, v)) == EVERY && Allowed(after.db, u, v) == {x}
  {
    var req := ReqGrantPermission(u, ProtocolCode(x), expires);
    AcceptedGrant(s.db, actor, u, ProtocolCode(x), expires);
    UntouchedKeepsEntry(s, actor, req, broken, u, v);
    RequestGlobals(s.db, actor, req, u);
    OnlyThatProtocol(s.db, u, x, expires);
    ServedTables(s, actor, req, broken);
    hide Serve, Served, Touched, GlobalsAfter, Unscoped, WellFormed, Globals, Listed, GrantPermissionRefusal;
  }

  lemma AcceptedGrant(db: Db, actor: UserId, u: UserId, p: Permission, expires: Expiry)
    requires GrantPermissionRefusal(db, actor, u, p, expires).None?
    ensures var req := ReqGrantPermission(u, p, expires);
            Serve(db, actor, req).reply.Done? && Touched(db, Serve(db, actor, req).db, req) == {}
  {
    hide GrantPermissionRefusal;
  }

  lemma UntouchedKeepsEntry(s: State, actor: UserId, req: Request, broken: Broken, u: UserId, v: VmId)
    requires !req.ReqDeleteUser?
    requires !ReSynced(s.db, actor, req, u, v)
    ensures var after := Served(s, actor, req, broken);
            && Entry(after.index, (u, v)) == Entry(s.index, (u, v))
            && (Unscoped(after.db, u, v) <==> Unscoped(s.db, u, v))
  {
    var after := Served(s, actor, req, broken);
    UntouchedPathsStay(s.db, actor, req, u, v);
    SamePathsSameAccess(s.db, after.db, u, v);
    hide Serve, Touched, SamePath, Listed, Unscoped;
  }

  lemma OnlyThatProtocol(db: Db, u: UserId, x: Protocol, expires: Expiry)
    requires Globals(db, u) == {}
    ensures GlobalsAfter(db, ReqGrantPermission(u, ProtocolCode(x), expires), u) == {x}
  {
    var req := ReqGrantPermission(u, ProtocolCode(x), expires);
    hide LiveSource;
    forall y: Protocol, src ensures !LiveSource(db, u, ProtocolCode(y), src) {
      assert y !in Globals(db, u);
    }
    assert SourceAfter(db, req, u, ProtocolCode(x), ByGrant);
  }

  // -- The clock --------------------------------------------------------------------------

  /** The rows of a path, or of a source, outlive the moment `to`. */
  predicate PathLasts(db: Db, u: UserId, v: VmId, path: Path, to: int)
    requires LivePath(db, u, v, path)
  {
    match path
    case Direct => Live(db.vmAccess[(u, v)].expires, to)
    case Via(g) => Live(db.members[(g, u)], to) && Live(db.groupVms[(g, v)].expires, to)
  }

  predicate SourceLasts(db: Db, u: UserId, p: Permission, src: Source, to: int)
    requires LiveSource(db, u, p, src)
  {
    match src
    case ByRole(r) => Live(db.userRoles[(u, r)], to)
    case ByGrant => Live(db.userPerms[(u, p)], to)
    case ByGroup(g, r) => Live(db.members[(g, u)], to) && Live(db.groupRoles[(g, r)], to)
  }

  ghost predicate UnscopedAt(db: Db, u: UserId, v: VmId, to: int) {
    exists path :: LivePath(db, u, v, path) && PathLasts(db, u, v, path, to) && GrantOn(db, u, v, path).protocols.None?
  }

  ghost predicate ListedAt(db: Db, u: UserId, v: VmId, x: Protocol, to: int) {
    exists path :: LivePath(db, u, v, path) && PathLasts(db, u, v, path, to) &&
      GrantOn(db, u, v, path).protocols.Some? && x in GrantOn(db, u, v, path).protocols.value
  }

  ghost function GlobalsAt(db: Db, u: UserId, to: int): set<Protocol> {
    set x: Protocol | exists src :: LiveSource(db, u, ProtocolCode(x), src) && SourceLasts(db, u, ProtocolCode(x), src, to)
  }

  /**
   The clock takes something away: a listed protocol no lasting grant lists; from a lasting unscoped grant
   some of its scope; or every unscoped grant, and the lasting ones list something else.
   */
  ghost predicate Lapses(db: Db, u: UserId, v: VmId, to: int) {
    to >= db.now &&
    if !Unscoped(db, u, v) then exists x :: Listed(db, u, v, x) && !ListedAt(db, u, v, x, to)
    else if UnscopedAt(db, u, v, to) then Scope(db, u) != ScopeOf(GlobalsAt(db, u, to))
    else Scope(db, u) != set x: Protocol | ListedAt(db, u, v, x, to)
  }

  lemma LaterRows(db: Db, to: int, u: UserId, v: VmId, path: Path)
    requires to >= db.now
    ensures LivePath(db.(now := to), u, v, path) <==> LivePath(db, u, v, path) && PathLasts(db, u, v, path, to)
    ensures LivePath(db.(now := to), u, v, path) ==> GrantOn(db.(now := to), u, v, path) == GrantOn(db, u, v, path)
  {
  }

  lemma LaterSource(db: Db, to: int, u: UserId, p: Permission, src: Source)
    requires to >= db.now
    ensures LiveSource(db.(now := to), u, p, src) <==> LiveSource(db, u, p, src) && SourceLasts(db, u, p, src, to)
  {
    hide RoleResolves;
  }

  lemma LaterAllows(db: Db, to: int, u: UserId, v: VmId)
    requires to >= db.now
    ensures var later := db.(now := to);
            && (Unscoped(later, u, v) <==> UnscopedAt(db, u, v, to))
            && (forall x :: Listed(later, u, v, x) <==> ListedAt(db, u, v, x, to))
            && Globals(later, u) == GlobalsAt(db, u, to)
  {
    var later := db.(now := to);
    forall path
      ensures LivePath(later, u, v, path) <==> LivePath(db, u, v, path) && PathLasts(db, u, v, path, to)
      ensures LivePath(later, u, v, path) ==> GrantOn(later, u, v, path) == GrantOn(db, u, v, path)
    {
      LaterRows(db, to, u, v, path);
    }
    forall x: Protocol, src
      ensures LiveSource(later, u, ProtocolCode(x), src) <==>
              LiveSource(db, u, ProtocolCode(x), src) && SourceLasts(db, u, ProtocolCode(x), src, to)
    {
      LaterSource(db, to, u, ProtocolCode(x), src);
    }
    hide LivePath, GrantOn, PathLasts, LiveSource, SourceLasts, ProtocolCode;
  }

  lemma TickExact(s: State, to: int, u: UserId, v: VmId)
    requires Exact(s, u, v)
    ensures Exact(Ticked(s, to), u, v) <==> !Lapses(s.db, u, v, to)
  {
    if to >= s.db.now {
      var later := s.db.(now := to);
      LaterAllows(s.db, to, u, v);
      AllowedByScope(s.db, u, v);
      AllowedByScope(later, u, v);
      UnscopedWas(s.db, to, u, v);
      assert Ticked(s, to).db == later && Ticked(s, to).index == s.index by { hide CanConnect; }
      hide Allowed, Unscoped, UnscopedAt, Listed, ListedAt, Globals, GlobalsAt, Ticked;
      assert (set x: Protocol | Listed(later, u, v, x)) == set x: Protocol | ListedAt(s.db, u, v, x, to);
      ListedLapse(s.db, to, u, v);
    } else {
      assert Ticked(s, to).db == s.db && Ticked(s, to).index == s.index by { hide CanConnect; }
    }
  }

  lemma UnscopedWas(db: Db, to: int, u: UserId, v: VmId)
    ensures UnscopedAt(db, u, v, to) ==> Unscoped(db, u, v)
  {
    hide LivePath, PathLasts, GrantOn;
  }

  lemma ListedLapse(db: Db, to: int, u: UserId, v: VmId)
    ensures (set x: Protocol | Listed(db, u, v, x)) == (set x: Protocol | ListedAt(db, u, v, x, to)) <==>
            !exists x :: Listed(db, u, v, x) && !ListedAt(db, u, v, x, to)
  {
    forall x: Protocol ensures ListedAt(db, u, v, x, to) ==> Listed(db, u, v, x) { ListedWas(db, to, u, v, x); }
    hide Listed, ListedAt;
    var now, later := set x: Protocol | Listed(db, u, v, x), set x: Protocol | ListedAt(db, u, v, x, to);
    if x :| Listed(db, u, v, x) && !ListedAt(db, u, v, x, to) { assert x in now && x !in later; }
  }

  lemma ListedWas(db: Db, to: int, u: UserId, v: VmId, x: Protocol)
    ensures ListedAt(db, u, v, x, to) ==> Listed(db, u, v, x)
  {
    hide LivePath, PathLasts, GrantOn;
  }

  // -- Sweeps, deletions, strangers ----------------------------------------------------------

  lemma SameAllowed(a: Db, b: Db, u: UserId, v: VmId)
    requires forall path :: SamePath(a, b, u, v, path)
    requires Unscoped(a, u, v) ==> forall x: Protocol, src :: LiveSource(a, u, ProtocolCode(x), src) <==> LiveSource(b, u, ProtocolCode(x), src)
    ensures Allowed(a, u, v) == Allowed(b, u, v)
  {
    SamePathsSameAccess(a, b, u, v);
    hide SamePath, Unscoped, Listed, LiveSource, ProtocolCode;
    if Unscoped(a, u, v) { assert Globals(a, u) == Globals(b, u); }
  }

  lemma SweptSource(db: Db, stuck: set<Pair>, u: UserId, p: Permission, src: Source)
    ensures LiveSource(Sweep(db, stuck), u, p, src) <==> LiveSource(db, u, p, src)
  {
    hide RoleResolves;
  }

  lemma SweptAllowed(db: Db, stuck: set<Pair>, u: UserId, v: VmId)
    ensures Allowed(Sweep(db, stuck), u, v) == Allowed(db, u, v)
  {
    forall path ensures SamePath(db, Sweep(db, stuck), u, v, path) { SweptPath(db, stuck, u, v, path); }
    forall x: Protocol, src ensures LiveSource(db, u, ProtocolCode(x), src) <==> LiveSource(Sweep(db, stuck), u, ProtocolCode(x), src) {
      SweptSource(db, stuck, u, ProtocolCode(x), src);
    }
    hide Sweep, SamePath, LiveSource, Allowed;
    SameAllowed(db, Sweep(db, stuck), u, v);
  }

  /** The sweep revokes a pair that is still reachable, or fails for it and leaves something else than there was. */
  ghost predicate SweepHurts(s: State, stuck: set<Pair>, broken: Broken, u: UserId, v: VmId) {
    (u, v) in s.index && IsStale(s.db, u, v) &&
    if (u, v) !in stuck then CanConnect(s.db, u, v) else (u, v) in broken && broken[(u, v)] != s.index[(u, v)]
  }

  lemma SweepExact(s: State, stuck: set<Pair>, broken: Broken, u: UserId, v: VmId)
    requires Exact(s, u, v)
    ensures Exact(SweptUp(s, stuck, broken), u, v) <==> !SweepHurts(s, stuck, broken, u, v)
  {
    SweptAllowed(s.db, stuck, u, v);
    AllowedMeansConnect(s.db, u, v);
    hide Allowed, IsStale, CanConnect, Sweep;
  }

  /** The account is emptied although it stays, or stays although the user goes. */
  ghost predicate DeletionHurts(s: State, actor: UserId, t: UserId, offline: bool, u: UserId, v: VmId) {
    && u == t && EarlyDeletionRefusal(s.db, actor, t).None? && Entry(s.index, (u, v)) != {}
    && (offline <==> ProtectedRefusal(s.db, t).None?)
  }

  lemma DeletionAllowed(db: Db, actor: UserId, t: UserId, u: UserId, v: VmId)
    requires WellFormed(db)
    ensures var out := DeleteUser(db, actor, t);
            Allowed(out.db, u, v) == if u == t && out.reply.Done? then {} else Allowed(db, u, v)
  {
    var out := DeleteUser(db, actor, t);
    if u == t && out.reply.Done? {
      DeletedUserReachesNothing(db, actor, t, v);
      AllowedMeansConnect(out.db, u, v);
    } else {
      forall path ensures SamePath(db, out.db, u, v, path) { DeleteUserPath(db, actor, t, u, v, path); }
      forall x: Protocol, src ensures LiveSource(db, u, ProtocolCode(x), src) <==> LiveSource(out.db, u, ProtocolCode(x), src) {
        DeletionSources(db, actor, t, u, ProtocolCode(x), src);
      }
      hide DeleteUser, SamePath, LiveSource, Allowed, WellFormed;
      SameAllowed(db, out.db, u, v);
    }
  }

  lemma DeletionSources(db: Db, actor: UserId, t: UserId, u: UserId, p: Permission, src: Source)
    requires WellFormed(db) && (u != t || DeleteUser(db, actor, t).reply.Refused?)
    ensures LiveSource(DeleteUser(db, actor, t).db, u, p, src) <==> LiveSource(db, u, p, src)
  {
    hide WellFormed, LiveSource, DeleteUserRefusal, DropUser;
    DeleteUserEffect(db, t, u, p, src);
  }

  lemma DeletionExact(s: State, actor: UserId, t: UserId, offline: bool, u: UserId, v: VmId)
    requires WellFormed(s.db) && Exact(s, u, v)
    ensures Exact(UserDeleted(s, actor, t, offline), u, v) <==> !DeletionHurts(s, actor, t, offline, u, v)
  {
    DeletionAllowed(s.db, actor, t, u, v);
    hide Allowed, WellFormed, EarlyDeletionRefusal, ProtectedRefusal, DropUser;
    assert DeleteUser(s.db, actor, t).reply.Done? <==> DropsGuacUser(s.db, actor, t) && ProtectedRefusal(s.db, t).None?;
    assert DropsGuacUser(s.db, actor, t) <==> EarlyDeletionRefusal(s.db, actor, t).None?;
  }

  lemma StrangerAllowed(db: Db, e: Event, u: UserId, v: VmId)
    requires WellFormed(db) && (e.SignUp? || e.AskToJoin?)
    ensures Allowed(Next(db, e), u, v) == Allowed(db, u, v)
  {
    var after := Next(db, e);
    StrangerReach(db, e);
    forall path ensures SamePath(db, after, u, v, path) {
      SameReachSamePath(after, db, u, v, path);
      SamePathFlips(after, db, u, v, path);
    }
    if Unscoped(db, u, v) {
      UnscopedIsKnown(db, u, v);
      forall x: Protocol, src ensures LiveSource(db, u, ProtocolCode(x), src) <==> LiveSource(after, u, ProtocolCode(x), src) {
        StrangerSources(db, e, u, ProtocolCode(x), src);
      }
    }
    hide Next, SamePath, LiveSource, Allowed, WellFormed, Unscoped, SameReach;
    SameAllowed(db, after, u, v);
  }

  lemma UnscopedIsKnown(db: Db, u: UserId, v: VmId)
    requires WellFormed(db) && Unscoped(db, u, v)
    ensures u in db.users
  {
    hide Live, RolesOk;
  }

  lemma StrangerSources(db: Db, e: Event, u: UserId, p: Permission, src: Source)
    requires WellFormed(db) && (e.SignUp? || e.AskToJoin?) && u in db.users
    ensures LiveSource(Next(db, e), u, p, src) <==> LiveSource(db, u, p, src)
  {
    hide WellFormed, LiveSource, UsernameTaken, Queued, InsertUser, BuiltInPermissions;
    match e
    case SignUp(newId, username, password) =>
      if newId !in db.users { InsertEffect(db, newId, username, password, GUEST, u, p, src); }
      RegisterIs(db, newId, username, password);
    case AskToJoin(request, username, password) =>
      AskIs(db, request, username, password);
      SameGrantsSameSources(db, Ask(db, request, username, password), u, p, src);
  }

  lemma RegisterIs(db: Db, newId: UserId, username: string, password: string)
    ensures Register(db, newId, username, password) ==
            if !UsernameTaken(db, username) && newId !in db.users then InsertUser(db, newId, username, password, GUEST) else db
  {
    hide UsernameTaken, InsertUser;
  }

  lemma AskIs(db: Db, request: RequestId, username: string, password: string)
    ensures SameGrants(db, Ask(db, request, username, password))
  {
    hide UsernameTaken, Queued;
    if UsernameTaken(db, username) {
      assert Ask(db, request, username, password) == db;
    } else {
      assert Ask(db, request, username, password) == db.(pending := Queued(db, request, username, password));
    }
  }

  lemma SeededExact(now: int, u: UserId, v: VmId)
    ensures WellFormed(Seeded(now)) && Exact(State(Seeded(now), map[], {}, {}, {}), u, v)
  {
    SeededIsWellFormed(now);
    AllowedMeansConnect(Seeded(now), u, v);
    hide Allowed;
  }

  // -- One step and whole runs ------------------------------------------------------------------

  ghost predicate BadlyReSynced(db: Db, actor: UserId, req: Request, broken: Broken, u: UserId, v: VmId) {
    (u, v) in broken && broken[(u, v)] != Allowed(Serve(db, actor, req).db, u, v)
  }

  /** The step takes an exact pair off its allowed protocols. */
  ghost predicate Disturbs(s: State, step: Step, u: UserId, v: VmId) {
    match step.event
    case Call(actor, ReqDeleteUser(t)) => DeletionHurts(s, actor, t, step.offline, u, v)
    case Call(actor, req) =>
      if ReSynced(s.db, actor, req, u, v) then BadlyReSynced(s.db, actor, req, step.broken, u, v)
      else Unscoped(s.db, u, v) && Rescopes(s.db, actor, req, u)
    case Tick(to) => Lapses(s.db, u, v, to)
    case Swept(stuck) => SweepHurts(s, stuck, step.broken, u, v)
    case _ => false
  }

  lemma ReSyncedExact(s: State, actor: UserId, req: Request, broken: Broken, u: UserId, v: VmId)
    requires ReSynced(s.db, actor, req, u, v)
    ensures Exact(Served(s, actor, req, broken), u, v) <==> !BadlyReSynced(s.db, actor, req, broken, u, v)
  {
    ServedTables(s, actor, req, broken);
    if (u, v) !in broken { TouchedProtocolsExact(s, actor, req, broken, u, v); }
    hide Serve, Touched, Allowed;
  }

  lemma CallExact(s: State, actor: UserId, req: Request, broken: Broken, offline: bool, u: UserId, v: VmId)
    requires WellFormed(s.db) && Exact(s, u, v)
    ensures var step := Step(Call(actor, req), broken, offline);
            Exact(Apply(s, step), u, v) <==> !Disturbs(s, step, u, v)
  {
    hide Exact, WellFormed, Served, UserDeleted, DeletionHurts, BadlyReSynced, Unscoped, Rescopes, Serve, Touched;
    if req.ReqDeleteUser? {
      DeletionExact(s, actor, req.target, offline, u, v);
    } else if ReSynced(s.db, actor, req, u, v) {
      ReSyncedExact(s, actor, req, broken, u, v);
    } else {
      UntouchedProtocols(s, actor, req, broken, u, v);
    }
  }

  /** One step of any kind keeps a pair exact if and only if it does not disturb it. */
  lemma StepExact(s: State, step: Step, u: UserId, v: VmId)
    requires WellFormed(s.db) && Exact(s, u, v)
    ensures Exact(Apply(s, step), u, v) <==> !Disturbs(s, step, u, v)
  {
    match step.event
    case Call(actor, req) => CallExact(s, actor, req, step.broken, step.offline, u, v);
    case Tick(to) => TickExact(s, to, u, v);
    case Swept(stuck) => SweepExact(s, stuck, step.broken, u, v);
    case _ =>
      StrangerAllowed(s.db, step.event, u, v);
      hide Allowed, Next, WellFormed;
  }

  ghost predicate AlwaysExact(s: State, steps: seq<Step>, u: UserId, v: VmId)
    decreases |steps|
  {
    Exact(s, u, v) && (steps != [] ==> AlwaysExact(Apply(s, steps[0]), steps[1..], u, v))
  }

  ghost predicate NeverDisturbed(s: State, steps: seq<Step>, u: UserId, v: VmId)
    decreases |steps|
  {
    steps != [] ==> !Disturbs(s, steps[0], u, v) && NeverDisturbed(Apply(s, steps[0]), steps[1..], u, v)
  }

  lemma StepWellFormed(s: State, step: Step)
    requires WellFormed(s.db)
    ensures WellFormed(Apply(s, step).db)
  {
    hide WellFormed, Apply, Next;
    StepTables(s, step);
    EventKeepsWellFormed(s.db, step.event);
  }

  /** Over every run, with any failures, a pair opens exactly its allowed protocols at every point if and only if no step disturbs it. */
  lemma {:induction false} RunExact(s: State, steps: seq<Step>, u: UserId, v: VmId)
    requires WellFormed(s.db) && Exact(s, u, v)
    ensures AlwaysExact(s, steps, u, v) <==> NeverDisturbed(s, steps, u, v)
    decreases |steps|
  {
    if steps != [] {
      StepExact(s, steps[0], u, v);
      StepWellFormed(s, steps[0]);
      hide WellFormed, Exact, Disturbs, Apply;
      if !Disturbs(s, steps[0], u, v) { RunExact(Apply(s, steps[0]), steps[1..], u, v); }
    }
  }

  /** A re-sync that works makes the pair exact, whatever it was. */
  ghost predicate Restores(s: State, step: Step, u: UserId, v: VmId) {
    step.event.Call? && !step.event.req.ReqDeleteUser? &&
    ReSynced(s.db, step.event.actor, step.event.req, u, v) &&
    !BadlyReSynced(s.db, step.event.actor, step.event.req, step.broken, u, v)
  }

  /** Disturbed since its last good re-sync; `was` says whether the pair was off at the start. */
  ghost predicate Off(s: State, steps: seq<Step>, u: UserId, v: VmId, was: bool)
    decreases |steps|
  {
    if steps == [] then was
    else Off(Apply(s, steps[0]), steps[1..], u, v, if was then !Restores(s, steps[0], u, v) else Disturbs(s, steps[0], u, v))
  }

  /** Over every run every pair opens exactly its allowed protocols, up to those disturbed since their last good re-sync. */
  lemma {:induction false} RunExactButOff(s: State, steps: seq<Step>, u: UserId, v: VmId, was: bool)
    requires WellFormed(s.db) && (Exact(s, u, v) || was)
    ensures Exact(RunAll(s, steps), u, v) || Off(s, steps, u, v, was)
    decreases |steps|
  {
    if steps != [] {
      StepExactOrOff(s, steps[0], u, v, was);
      StepWellFormed(s, steps[0]);
      hide WellFormed, Exact, Disturbs, Restores, Apply;
      RunExactButOff(Apply(s, steps[0]), steps[1..], u, v, if was then !Restores(s, steps[0], u, v) else Disturbs(s, steps[0], u, v));
    }
  }

  lemma StepExactOrOff(s: State, step: Step, u: UserId, v: VmId, was: bool)
    requires WellFormed(s.db) && (Exact(s, u, v) || was)
    ensures Exact(Apply(s, step), u, v) || if was then !Restores(s, step, u, v) else Disturbs(s, step, u, v)
  {
    if !was {
      StepExact(s, step, u, v);
    } else if Restores(s, step, u, v) {
      ReSyncedExact(s, step.event.actor, step.event.req, step.broken, u, v);
      hide Served, Exact, ReSynced, BadlyReSynced;
    }
    hide Exact, Disturbs, Restores;
  }
}
