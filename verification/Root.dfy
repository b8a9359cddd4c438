/**
 The initial administrator over whole runs: the account, its active flag and its
 ADMIN row survive every event. Whether the row also stays permanent depends on
 one request, which is named exactly.
 */
module Root {
  import opened Common
  import opened Iam
  import opened Tables
  import opened Effects
  import opened Delegation

  const ADMIN_ROLE := RoleIdOf(ADMIN)

  /** The initial administrator is there, active, and has its ADMIN row, dated or not. */
  predicate Rooted(db: Db, root: UserId) {
    InitialAdmin(db, root) && db.users[root].active && (root, ADMIN_ROLE) in db.userRoles
  }

  predicate PermanentlyRooted(db: Db, root: UserId) {
    Rooted(db, root) && db.userRoles[(root, ADMIN_ROLE)] == None
  }

  function MarkInitial(db: Db, u: UserId): Db {
    if u in db.users then db.(users := db.users[u := db.users[u].(initialAdmin := true)]) else db
  }

  /** The account setup inserts and marks is such a root, and the tables stay well formed. */
  lemma SetupSeedsRoot(db: Db, newId: UserId, username: string, password: string)
    requires WellFormed(db)
    ensures var after := MarkInitial(InsertUser(db, newId, username, password, ADMIN), newId);
            PermanentlyRooted(after, newId) && WellFormed(after)
  {
    InsertUserKeeps(db, newId, username, password, ADMIN);
    var inserted := InsertUser(db, newId, username, password, ADMIN);
    assert MarkInitial(inserted, newId).users.Keys == inserted.users.Keys;
    hide RolesOk;
  }

  predicate SameAccounts(a: Db, b: Db) {
    a.users == b.users && a.userRoles == b.userRoles
  }

  /** The accepted request that puts a date on the initial administrator's ADMIN row. */
  ghost predicate DatesRoot(db: Db, e: Event, root: UserId) {
    && e.Call? && e.req.ReqAssignRole? && e.req.target == root && e.req.role == ADMIN_ROLE && e.req.expires.Some?
    && Serve(db, e.actor, e.req).reply.Done?
  }

  /** What a step must keep: the row stays, and its date moves only by a dating request. */
  ghost predicate RootSurvives(db: Db, e: Event, after: Db, root: UserId) {
    && Rooted(after, root)
    && (PermanentlyRooted(db, root) ==> (PermanentlyRooted(after, root) <==> !DatesRoot(db, e, root)))
  }

  predicate RootUnmoved(db: Db, after: Db, root: UserId) {
    && Rooted(db, root) && Rooted(after, root)
    && after.userRoles[(root, ADMIN_ROLE)] == db.userRoles[(root, ADMIN_ROLE)]
  }

  lemma UntouchedAccounts(db: Db, e: Event, root: UserId)
    requires Rooted(db, root) && SameAccounts(Next(db, e), db) && !(e.Call? && e.req.ReqAssignRole?)
    ensures RootSurvives(db, e, Next(db, e), root)
  {
    hide Next;
  }

  lemma AssignKeepsRoot(db: Db, actor: UserId, req: Request, root: UserId)
    requires Rooted(db, root) && req.ReqAssignRole?
    ensures RootSurvives(db, Call(actor, req), Serve(db, actor, req).db, root)
  {
    hide AssignRoleRefusal;
  }

  lemma RemoveKeepsRoot(db: Db, actor: UserId, req: Request, root: UserId)
    requires WellFormed(db) && Rooted(db, root) && req.ReqRemoveRole?
    ensures RootSurvives(db, Call(actor, req), Serve(db, actor, req).db, root)
  {
    hide MayUse, CanAdminister, OtherActiveAdmin;
    assert db.roles[ADMIN_ROLE].name == BuiltIn(ADMIN);
  }

  lemma DeleteRoleKeepsRoot(db: Db, actor: UserId, req: Request, root: UserId)
    requires WellFormed(db) && Rooted(db, root) && req.ReqDeleteRole?
    ensures RootSurvives(db, Call(actor, req), Serve(db, actor, req).db, root)
  {
    hide MayUse;
    assert db.roles[ADMIN_ROLE].name == BuiltIn(ADMIN) && RoleOk(ADMIN_ROLE, db.roles[ADMIN_ROLE]);
  }

  lemma InsertKeepsRoot(db: Db, newId: UserId, username: string, password: string, kind: Kind, root: UserId)
    requires Rooted(db, root) && newId !in db.users
    ensures RootUnmoved(db, InsertUser(db, newId, username, password, kind), root)
  {
  }

  lemma CreateKeepsRoot(db: Db, actor: UserId, req: Request, root: UserId)
    requires Rooted(db, root) && req.ReqCreateUser?
    ensures RootSurvives(db, Call(actor, req), Serve(db, actor, req).db, root)
  {
    hide MayUse, MayConfer, UsernameTaken, InsertUser;
    if req.newId !in db.users { InsertKeepsRoot(db, req.newId, req.username, req.secret, req.kind, root); }
  }

  lemma DropPendingKeepsRoot(db: Db, request: RequestId, root: UserId)
    requires Rooted(db, root)
    ensures RootUnmoved(db, DropPending(db, request), root)
  {
  }

  lemma AdmitKeepsRoot(db: Db, request: RequestId, newId: UserId, kind: Kind, root: UserId)
    requires Rooted(db, root) && newId !in db.users
    ensures RootUnmoved(db, Admit(db, request, newId, kind), root)
  {
    hide InsertUser;
    if request in db.pending {
      var q := db.pending[request];
      InsertKeepsRoot(DropPending(db, request), newId, q.username, q.password, kind, root);
    }
  }

  lemma ApproveKeepsRoot(db: Db, actor: UserId, req: Request, root: UserId)
    requires Rooted(db, root) && req.ReqApprove?
    ensures RootSurvives(db, Call(actor, req), Serve(db, actor, req).db, root)
  {
    hide MayUse, MayConfer, UsernameTaken, Admit, DropPending, InitialAdmin;
    DropPendingKeepsRoot(db, req.request, root);
    if req.newId !in db.users { AdmitKeepsRoot(db, req.request, req.newId, req.kind, root); }
  }

  lemma DeleteUserKeepsRoot(db: Db, actor: UserId, req: Request, root: UserId)
    requires Rooted(db, root) && req.ReqDeleteUser?
    ensures RootSurvives(db, Call(actor, req), Serve(db, actor, req).db, root)
  {
    hide MayUse, CanAdminister, LiveAdmin, OtherActiveAdmin;
  }

  lemma SetActiveKeepsRoot(db: Db, t: UserId, active: bool, root: UserId)
    requires Rooted(db, root) && (t == root ==> active)
    ensures RootUnmoved(db, SetActive(db, t, active), root)
  {
    assert SetActive(db, t, active).users[root] == db.users[root];
  }

  lemma UpdateActiveKeepsRoot(db: Db, actor: UserId, t: UserId, active: Option<bool>, root: UserId)
    requires Rooted(db, root)
    ensures RootUnmoved(db, UpdateActive(db, actor, t, active).db, root)
  {
    hide LiveAdmin, OtherActiveAdmin, SetActive;
    if active.Some? && (t == root ==> active.value) { SetActiveKeepsRoot(db, t, active.value, root); }
  }

  lemma UpdateKindKeepsRoot(db: Db, actor: UserId, t: UserId, kind: Option<Kind>, root: UserId)
    requires Rooted(db, root)
    ensures RootUnmoved(db, UpdateKind(db, actor, t, kind).db, root)
  {
    hide LiveAdmin, OtherActiveAdmin, MayConfer;
  }

  lemma SetPasswordKeepsRoot(db: Db, t: UserId, password: Option<string>, root: UserId)
    requires Rooted(db, root)
    ensures RootUnmoved(db, SetPassword(db, t, password), root)
  {
    if password.Some? && t in db.users {
      assert SetPassword(db, t, password).users == db.users[t := db.users[t].(password := password.value)];
    }
  }

  lemma UpdateUserKeepsRoot(db: Db, actor: UserId, req: Request, root: UserId)
    requires Rooted(db, root) && req.ReqUpdateUser?
    ensures RootSurvives(db, Call(actor, req), Serve(db, actor, req).db, root)
  {
    hide UpdateUserRefusal, UpdateActive, UpdateKind, SetPassword, InitialAdmin;
    UpdateActiveKeepsRoot(db, actor, req.target, req.active, root);
    var first := UpdateActive(db, actor, req.target, req.active).db;
    UpdateKindKeepsRoot(first, actor, req.target, req.newKind, root);
    var second := UpdateKind(first, actor, req.target, req.newKind).db;
    SetPasswordKeepsRoot(second, req.target, req.password, root);
  }

  predicate TouchesAccounts(req: Request) {
    || req.ReqAssignRole? || req.ReqRemoveRole? || req.ReqDeleteRole? || req.ReqCreateUser? || req.ReqApprove?
    || req.ReqDeleteUser? || req.ReqUpdateUser?
  }

  lemma OthersLeaveAccounts(db: Db, actor: UserId, req: Request)
    requires !TouchesAccounts(req)
    ensures SameAccounts(Serve(db, actor, req).db, db)
  {
    hide CreateRoleRefusal, EditRoleRefusal, GrantPermissionRefusal, RevokePermissionRefusal, CreateGroupRefusal, RenameGroupRefusal, GroupRefusal,
      AddMemberRefusal, RemoveMemberRefusal, LinkRoleRefusal, UnlinkRoleRefusal, GrantVmRefusal, RevokeVmRefusal;
  }

  lemma RegisterKeepsRoot(db: Db, newId: UserId, username: string, password: string, root: UserId)
    requires Rooted(db, root)
    ensures RootUnmoved(db, Register(db, newId, username, password), root)
  {
    hide InsertUser, UsernameTaken, InitialAdmin;
    if newId !in db.users { InsertKeepsRoot(db, newId, username, password, GUEST, root); }
  }

  lemma SweepLeavesAccounts(db: Db, stuck: set<(UserId, VmId)>)
    ensures SameAccounts(Sweep(db, stuck), db)
  {
  }

  lemma AskLeavesAccounts(db: Db, request: RequestId, username: string, password: string)
    ensures SameAccounts(Ask(db, request, username, password), db)
  {
    hide UsernameTaken, Queued;
    if UsernameTaken(db, username) {
      assert Ask(db, request, username, password) == db;
    } else {
      assert Ask(db, request, username, password) == db.(pending := Queued(db, request, username, password));
    }
  }

  lemma AdvanceLeavesAccounts(db: Db, to: int)
    ensures SameAccounts(Advance(db, to), db)
  {
  }

  lemma EnvironmentLeavesAccounts(db: Db, e: Event)
    requires !e.Call? && !e.SignUp?
    ensures SameAccounts(Next(db, e), db)
  {
    hide SameAccounts, Sweep, Ask, Advance, Register, Serve;
    match e
    case Swept(stuck) => SweepLeavesAccounts(db, stuck);
    case AskToJoin(request, username, password) => AskLeavesAccounts(db, request, username, password);
    case Tick(to) => AdvanceLeavesAccounts(db, to);
  }

  lemma EnvironmentKeepsRoot(db: Db, e: Event, root: UserId)
    requires Rooted(db, root) && !e.Call?
    ensures RootSurvives(db, e, Next(db, e), root)
  {
    if e.SignUp? {
      hide Register, Serve, InitialAdmin;
      RegisterKeepsRoot(db, e.newId, e.username, e.password, root);
    } else {
      hide Next, RootSurvives, SameAccounts, InitialAdmin;
      EnvironmentLeavesAccounts(db, e);
      UntouchedAccounts(db, e, root);
    }
  }

  /** One event: the root account, its flag and its row stay, and only a dating request makes the row temporary. */
  lemma EventKeepsRoot(db: Db, e: Event, root: UserId)
    requires WellFormed(db) && Rooted(db, root)
    ensures RootSurvives(db, e, Next(db, e), root)
  {
    if e.Call? {
      hide WellFormed, Rooted, Serve, RootSurvives, SameAccounts;
      if !TouchesAccounts(e.req) {
        OthersLeaveAccounts(db, e.actor, e.req);
        UntouchedAccounts(db, e, root);
      } else {
        match e.req {
          case ReqAssignRole(_, _, _) => AssignKeepsRoot(db, e.actor, e.req, root);
          case ReqRemoveRole(_, _) => RemoveKeepsRoot(db, e.actor, e.req, root);
          case ReqDeleteRole(_) => DeleteRoleKeepsRoot(db, e.actor, e.req, root);
          case ReqDeleteUser(_) => DeleteUserKeepsRoot(db, e.actor, e.req, root);
          case ReqUpdateUser(_, _, _, _) => UpdateUserKeepsRoot(db, e.actor, e.req, root);
          case ReqCreateUser(_, _, _, _) => CreateKeepsRoot(db, e.actor, e.req, root);
          case ReqApprove(_, _, _) => ApproveKeepsRoot(db, e.actor, e.req, root);
        }
      }
    } else {
      hide WellFormed, Serve;
      EnvironmentKeepsRoot(db, e, root);
    }
  }

  /** Administrator preservation: over every run, whoever acts, the initial administrator keeps account, flag and ADMIN row. */
  lemma {:induction false} RootPreserved(db: Db, es: seq<Event>, root: UserId)
    requires WellFormed(db) && Rooted(db, root)
    ensures Rooted(Run(db, es), root)
    decreases |es|
  {
    hide WellFormed, Rooted, Next, DatesRoot;
    if es != [] {
      EventKeepsWellFormed(db, es[0]);
      EventKeepsRoot(db, es[0], root);
      RootPreserved(Next(db, es[0]), es[1..], root);
    }
  }

  /** The run contains an accepted request that dates the root's ADMIN row. */
  ghost predicate RunDatesRoot(db: Db, es: seq<Event>, root: UserId)
    decreases |es|
  {
    es != [] && (DatesRoot(db, es[0], root) || RunDatesRoot(Next(db, es[0]), es[1..], root))
  }

  lemma RootIsLiveAdmin(db: Db, root: UserId)
    requires WellFormed(db) && PermanentlyRooted(db, root)
    ensures LiveAdmin(db, root)
  {
    assert HasRole(db, root, ADMIN_ROLE) && db.roles[ADMIN_ROLE].name == BuiltIn(ADMIN);
  }

  /** Without a dating request there is an active, unexpired administrator at the end of every run. */
  lemma {:induction false} RootStaysAdmin(db: Db, es: seq<Event>, root: UserId)
    requires WellFormed(db) && PermanentlyRooted(db, root) && !RunDatesRoot(db, es, root)
    ensures PermanentlyRooted(Run(db, es), root) && LiveAdmin(Run(db, es), root)
    decreases |es|
  {
    hide WellFormed, Next, DatesRoot, LiveAdmin, InitialAdmin;
    if es == [] {
      RootIsLiveAdmin(db, root);
    } else {
      EventKeepsWellFormed(db, es[0]);
      EventKeepsRoot(db, es[0], root);
      RootStaysAdmin(Next(db, es[0]), es[1..], root);
    }
  }

  // -- The dating request, and what it can cost --------------------------------

  /** An administrator can always date its own ADMIN row: the upsert has no guard against it. */
  lemma RootMayDateItself(db: Db, root: UserId, t: int)
    requires WellFormed(db) && PermanentlyRooted(db, root) && t > db.now
    ensures AssignRoleRefusal(db, root, root, ADMIN_ROLE, Some(t)).None?
  {
    hide InitialAdmin, LiveAdmin, BuiltInPermissions;
    BuiltInRoleIs(db, ADMIN);
    RootIsLiveAdmin(db, root);
    forall c ensures Holds(db, root, Known(c)) {
      AdminHolds(db, root, c);
    }
    AdminConfersCatalog(db);
  }

  lemma AdminHolds(db: Db, u: UserId, c: Code)
    requires WellFormed(db) && HasRole(db, u, ADMIN_ROLE)
    ensures Holds(db, u, Known(c))
  {
    BuiltInRoleIs(db, ADMIN);
    hide WellFormed, RoleResolves;
    assert Known(c) in BuiltInPermissions(ADMIN);
    assert LiveSource(db, u, Known(c), ByRole(ADMIN_ROLE));
  }

  lemma AdminConfersCatalog(db: Db)
    requires WellFormed(db)
    ensures ADMIN_ROLE in db.roles && InCatalog(RoleConfers(db.roles[ADMIN_ROLE]))
  {
    assert db.roles[ADMIN_ROLE].name == BuiltIn(ADMIN);
  }

  /** Every live source of `p` is the root's ADMIN row. */
  ghost predicate OnlyThroughRoot(db: Db, root: UserId, p: Permission) {
    forall u, src :: LiveSource(db, u, p, src) ==> u == root && src == ByRole(ADMIN_ROLE)
  }

  /** The tables once the date has passed. */
  function Lapsed(db: Db, root: UserId, t: int): Db {
    PutUserRole(db, root, ADMIN_ROLE, Some(t)).(now := t)
  }

  lemma DatedStep(db: Db, root: UserId, t: int)
    requires WellFormed(db) && PermanentlyRooted(db, root) && t > db.now
    ensures Next(db, Call(root, ReqAssignRole(root, ADMIN_ROLE, Some(t)))) == PutUserRole(db, root, ADMIN_ROLE, Some(t))
  {
    RootMayDateItself(db, root, t);
    hide WellFormed, Rooted, AssignRoleRefusal, PutUserRole;
  }

  lemma DatedRun(db: Db, root: UserId, t: int)
    requires WellFormed(db) && PermanentlyRooted(db, root) && t > db.now
    ensures Run(db, [Call(root, ReqAssignRole(root, ADMIN_ROLE, Some(t))), Tick(t)]) == Lapsed(db, root, t)
  {
    DatedStep(db, root, t);
    hide WellFormed, Rooted, Serve;
    var e := Call(root, ReqAssignRole(root, ADMIN_ROLE, Some(t)));
    var dated := Next(db, e);
    assert [e, Tick(t)][1..] == [Tick(t)];
    assert Run(dated, [Tick(t)]) == Run(Next(dated, Tick(t)), []);
  }

  lemma LapsedSource(db: Db, root: UserId, t: int, u: UserId, p: Permission, src: Source)
    requires t > db.now && LiveSource(Lapsed(db, root, t), u, p, src)
    ensures LiveSource(db, u, p, src) && !(u == root && src == ByRole(ADMIN_ROLE))
  {
    hide RoleResolves;
  }

  lemma LapsedHoldNothing(db: Db, root: UserId, t: int, u: UserId, p: Permission)
    requires OnlyThroughRoot(db, root, p) && t > db.now
    ensures !Holds(Lapsed(db, root, t), u, p)
  {
    if Holds(Lapsed(db, root, t), u, p) {
      hide LiveSource, Lapsed;
      var src :| LiveSource(Lapsed(db, root, t), u, p, src);
      LapsedSource(db, root, t, u, p, src);
    }
  }

  /**
   The cost: when the root is the only holder of a permission, its own accepted request and
   the passing of the date lose that permission to everybody, and no later run brings it back,
   although account, flag and row are all still there.
   */
  lemma DatedRootLocksOut(db: Db, root: UserId, t: int, p: Permission, es: seq<Event>)
    requires WellFormed(db) && PermanentlyRooted(db, root) && t > db.now && OnlyThroughRoot(db, root, p)
    ensures var late := Run(Run(db, [Call(root, ReqAssignRole(root, ADMIN_ROLE, Some(t))), Tick(t)]), es);
            Rooted(late, root) && forall u :: !Holds(late, u, p)
  {
    hide WellFormed, InitialAdmin, Run, Lapsed, OnlyThroughRoot, Holds;
    var start := [Call(root, ReqAssignRole(root, ADMIN_ROLE, Some(t))), Tick(t)];
    DatedRun(db, root, t);
    RunKeepsWellFormed(db, start);
    RootPreserved(db, start, root);
    RootPreserved(Run(db, start), es, root);
    forall u ensures !Holds(Run(db, start), u, p) { LapsedHoldNothing(db, root, t, u, p); }
    NothingFromNothing(Run(db, start), es, p);
  }
}
