/**
 How the Guacamole index and effective VM access stay together over whole runs of
 endpoint calls, clock ticks and sweeps, and when the code empties the index early.
 What becomes of pairs that lapse by the clock is in `Cleanup`.
 */
module Agreement {
  import opened Common
  import opened Iam
  import opened Tables
  import opened Guac

  // -- One step ---------------------------------------------------------------------

  lemma SamePathsSamePair(s: State, after: State, u: UserId, v: VmId)
    requires forall path :: SamePath(s.db, after.db, u, v, path)
    requires Entry(s.index, (u, v)) == Entry(after.index, (u, v))
    requires (u, v) in s.failed ==> (u, v) in after.failed
    requires (u, v) in s.lapsed ==> (u, v) in after.lapsed
    requires (u, v) in s.dropped ==> (u, v) in after.dropped
    requires Covered(s, u, v) && Justified(s, u, v)
    ensures Covered(after, u, v) && Justified(after, u, v)
  {
    SamePathsSameAccess(s.db, after.db, u, v);
    hide CanConnect, SamePath;
  }

  lemma TouchedPair(s: State, actor: UserId, req: Request, broken: Broken, u: UserId, v: VmId)
    requires Serve(s.db, actor, req).reply.Done? && (u, v) in Touched(s.db, Serve(s.db, actor, req).db, req)
    ensures var after := Served(s, actor, req, broken); Covered(after, u, v) && Justified(after, u, v)
  {
    var after := Served(s, actor, req, broken);
    hide Serve, Touched, CanConnect, Allowed;
    AllowedMeansConnect(after.db, u, v);
    assert (u, v) !in broken ==> Entry(after.index, (u, v)) == Allowed(after.db, u, v);
  }

  lemma UntouchedPair(s: State, actor: UserId, req: Request, broken: Broken, u: UserId, v: VmId)
    requires !req.ReqDeleteUser? && Covered(s, u, v) && Justified(s, u, v)
    requires var out := Serve(s.db, actor, req); out.reply.Done? ==> (u, v) !in Touched(s.db, out.db, req)
    ensures var after := Served(s, actor, req, broken); Covered(after, u, v) && Justified(after, u, v)
  {
    hide Serve, Touched, CanConnect, Allowed, SamePath, Covered, Justified;
    UntouchedPathsStay(s.db, actor, req, u, v);
    SamePathsSamePair(s, Served(s, actor, req, broken), u, v);
  }

  lemma ServedPair(s: State, actor: UserId, req: Request, broken: Broken, u: UserId, v: VmId)
    requires !req.ReqDeleteUser? && Covered(s, u, v) && Justified(s, u, v)
    ensures var after := Served(s, actor, req, broken); Covered(after, u, v) && Justified(after, u, v)
  {
    hide Serve, Served, Touched, Covered, Justified;
    var out := Serve(s.db, actor, req);
    if out.reply.Done? && (u, v) in Touched(s.db, out.db, req) {
      TouchedPair(s, actor, req, broken, u, v);
    } else {
      UntouchedPair(s, actor, req, broken, u, v);
    }
  }

  lemma LaterPath(db: Db, to: int, u: UserId, v: VmId, path: Path)
    requires to >= db.now && LivePath(db.(now := to), u, v, path)
    ensures LivePath(db, u, v, path) && GrantOn(db.(now := to), u, v, path) == GrantOn(db, u, v, path)
  {
  }

  /** The clock only takes access away. */
  lemma LaterAccess(db: Db, to: int, u: UserId, v: VmId)
    requires CanConnect(Advance(db, to), u, v)
    ensures CanConnect(db, u, v)
  {
    hide LivePath, GrantOn;
    if to < db.now { return; }
    var later := db.(now := to);
    var path :| LivePath(later, u, v, path) && Opens(GrantOn(later, u, v, path));
    LaterPath(db, to, u, v, path);
  }

  lemma TickedPair(s: State, to: int, u: UserId, v: VmId)
    requires Covered(s, u, v) && Justified(s, u, v)
    ensures Covered(Ticked(s, to), u, v) && Justified(Ticked(s, to), u, v)
  {
    if CanConnect(Advance(s.db, to), u, v) { LaterAccess(s.db, to, u, v); }
    hide CanConnect, Advance;
  }

  lemma SweptPath(db: Db, stuck: set<Pair>, u: UserId, v: VmId, path: Path)
    ensures SamePath(db, Sweep(db, stuck), u, v, path)
  {
  }

  lemma SweptAccess(db: Db, stuck: set<Pair>, u: UserId, v: VmId)
    ensures CanConnect(db, u, v) <==> CanConnect(Sweep(db, stuck), u, v)
  {
    hide SamePath, Sweep, CanConnect;
    forall path ensures SamePath(db, Sweep(db, stuck), u, v, path) { SweptPath(db, stuck, u, v, path); }
    SamePathsSameAccess(db, Sweep(db, stuck), u, v);
  }

  lemma SweptPair(s: State, stuck: set<Pair>, broken: Broken, u: UserId, v: VmId)
    requires Covered(s, u, v) && Justified(s, u, v)
    ensures var after := SweptUp(s, stuck, broken); Covered(after, u, v) && Justified(after, u, v)
  {
    hide CanConnect, Sweep, IsStale;
    SweptAccess(s.db, stuck, u, v);
  }

  lemma DeletedUserReachesNothing(db: Db, actor: UserId, t: UserId, v: VmId)
    requires DeleteUser(db, actor, t).reply.Done?
    ensures !CanConnect(DeleteUser(db, actor, t).db, t, v)
  {
    hide DeleteUserRefusal, Live;
  }

  lemma DropUserPath(db: Db, actor: UserId, t: UserId, u: UserId, v: VmId, path: Path)
    requires u != t
    ensures SamePath(db, DropUser(db, t), u, v, path)
  {
    hide Live;
  }

  lemma DeleteUserPath(db: Db, actor: UserId, t: UserId, u: UserId, v: VmId, path: Path)
    requires u != t || DeleteUser(db, actor, t).reply.Refused?
    ensures SamePath(db, DeleteUser(db, actor, t).db, u, v, path)
  {
    hide DeleteUserRefusal, DropUser, SamePath;
    if u != t { DropUserPath(db, actor, t, u, v, path); }
    SameReachSamePath(db, db, u, v, path);
  }

  lemma DeletionAsksFirst(db: Db, actor: UserId, t: UserId)
    requires DeleteUser(db, actor, t).reply.Done?
    ensures DropsGuacUser(db, actor, t)
  {
    hide MayUse, CanAdminister, InitialAdmin, LiveAdmin, OtherActiveAdmin, DropUser;
  }

  lemma UserDeletedPair(s: State, actor: UserId, t: UserId, offline: bool, u: UserId, v: VmId)
    requires Covered(s, u, v) && Justified(s, u, v)
    ensures var after := UserDeleted(s, actor, t, offline); Covered(after, u, v) && Justified(after, u, v)
  {
    var after := UserDeleted(s, actor, t, offline);
    var out := DeleteUser(s.db, actor, t);
    hide DeleteUser, DropsGuacUser, SamePath;
    if out.reply.Done? { DeletionAsksFirst(s.db, actor, t); }
    if u != t || out.reply.Refused? {
      forall path ensures SamePath(s.db, after.db, u, v, path) { DeleteUserPath(s.db, actor, t, u, v, path); }
      SamePathsSameAccess(s.db, after.db, u, v);
    } else {
      DeletedUserReachesNothing(s.db, actor, t, v);
    }
    hide CanConnect;
  }

  lemma RegisterReach(db: Db, newId: UserId, username: string, password: string)
    ensures SameReach(Register(db, newId, username, password), db)
  {
    hide UsernameTaken;
    if !UsernameTaken(db, username) && newId !in db.users {
      assert Register(db, newId, username, password) == InsertUser(db, newId, username, password, GUEST);
    } else {
      assert Register(db, newId, username, password) == db;
    }
  }

  lemma AskReach(db: Db, request: RequestId, username: string, password: string)
    ensures SameReach(Ask(db, request, username, password), db)
  {
    hide UsernameTaken, Queued;
    if UsernameTaken(db, username) {
      assert Ask(db, request, username, password) == db;
    } else {
      assert Ask(db, request, username, password) == db.(pending := Queued(db, request, username, password));
    }
  }

  lemma StrangerReach(db: Db, e: Event)
    requires e.SignUp? || e.AskToJoin?
    ensures SameReach(Next(db, e), db)
  {
    hide Serve, Register, Ask, SameReach;
    match e
    case SignUp(newId, username, password) => RegisterReach(db, newId, username, password);
    case AskToJoin(request, username, password) => AskReach(db, request, username, password);
  }

  lemma StrangerPair(s: State, e: Event, u: UserId, v: VmId)
    requires Covered(s, u, v) && Justified(s, u, v) && (e.SignUp? || e.AskToJoin?)
    ensures var after := s.(db := Next(s.db, e)); Covered(after, u, v) && Justified(after, u, v)
  {
    hide SameReach, SamePath, Next, Covered, Justified;
    StrangerReach(s.db, e);
    forall path ensures SamePath(s.db, Next(s.db, e), u, v, path) {
      SameReachSamePath(Next(s.db, e), s.db, u, v, path);
      SamePathFlips(Next(s.db, e), s.db, u, v, path);
    }
    SamePathsSamePair(s, s.(db := Next(s.db, e)), u, v);
  }

  lemma StepPair(s: State, step: Step, u: UserId, v: VmId)
    requires Covered(s, u, v) && Justified(s, u, v)
    ensures Covered(Apply(s, step), u, v) && Justified(Apply(s, step), u, v)
  {
    hide Covered, Justified, Served, UserDeleted, Ticked, SweptUp, Next;
    match step.event
    case Call(actor, req) =>
      if req.ReqDeleteUser? { UserDeletedPair(s, actor, req.target, step.offline, u, v); }
      else { ServedPair(s, actor, req, step.broken, u, v); }
    case Tick(to) => TickedPair(s, to, u, v);
    case Swept(stuck) => SweptPair(s, stuck, step.broken, u, v);
    case SignUp(_, _, _) => StrangerPair(s, step.event, u, v);
    case AskToJoin(_, _, _) => StrangerPair(s, step.event, u, v);
  }

  lemma StepTables(s: State, step: Step)
    ensures Apply(s, step).db == Next(s.db, step.event)
  {
    hide Resync, Touched, Pruned, Sweep, CreateRole, EditRole, DeleteRole, AssignRole, RemoveRole, GrantPermission, RevokePermission,
      CreateGroup, RenameGroup, DeleteGroup, AddMember, RemoveMember, LinkRole, UnlinkRole, GrantVm, RevokeVm,
      CreateUser, UpdateUser, DeleteUser, Approve, CanConnect, IsStale, DropsGuacUser;
  }

  lemma StepAgrees(s: State, step: Step)
    requires Agrees(s)
    ensures Agrees(Apply(s, step))
  {
    hide WellFormed, Covered, Justified, Apply, Next;
    StepTables(s, step);
    EventKeepsWellFormed(s.db, step.event);
    forall u, v ensures Covered(Apply(s, step), u, v) && Justified(Apply(s, step), u, v) { StepPair(s, step, u, v); }
  }

  lemma SeededAgrees(now: int)
    ensures Agrees(State(Seeded(now), map[], {}, {}, {}))
  {
    SeededIsWellFormed(now);
    hide WellFormed;
  }

  /**
   Over every run, with any failures: what a user can reach is in the index unless a re-sync failed or
   the index was emptied early; what is in the index is reachable unless it lapsed or a re-sync failed.
   */
  lemma {:induction false} RunAgrees(s: State, steps: seq<Step>)
    requires Agrees(s)
    ensures Agrees(RunAll(s, steps))
    decreases |steps|
  {
    hide Agrees, Apply;
    if steps != [] {
      StepAgrees(s, steps[0]);
      RunAgrees(Apply(s, steps[0]), steps[1..]);
    }
  }

  // -- Runs in which nothing goes wrong ------------------------------------------------

  /** No failed attempt, no refused account deletion, and no sweep over a pair that is still reachable. */
  ghost predicate Smooth(s: State, step: Step) {
    && step.broken == map[] && !step.offline
    && (step.event.Swept? ==> step.event.stuck == {} && forall u, v :: IsStale(s.db, u, v) ==> !CanConnect(s.db, u, v))
    && (step.event.Call? && step.event.req.ReqDeleteUser? ==>
          Serve(s.db, step.event.actor, step.event.req).reply.Done? || !DropsGuacUser(s.db, step.event.actor, step.event.req.target))
  }

  ghost predicate SmoothRun(s: State, steps: seq<Step>)
    decreases |steps|
  {
    steps != [] ==> Smooth(s, steps[0]) && SmoothRun(Apply(s, steps[0]), steps[1..])
  }

  lemma SmoothStepRecordsNothing(s: State, step: Step)
    requires Smooth(s, step) && s.failed == {} && s.dropped == {}
    ensures Apply(s, step).failed == {} && Apply(s, step).dropped == {}
  {
    if step.event.Call? && step.event.req.ReqDeleteUser? {
      hide DeleteUser, DropsGuacUser;
    } else if step.event.Call? {
      hide Serve, Touched;
    } else {
      hide Sweep, Next, CanConnect, IsStale;
    }
  }

  /**
   Touching members times VMs is enough: after any smooth run effective access lies inside the
   index, and the index inside effective access and the pairs that lapsed since their last re-sync.
   */
  lemma {:induction false} SmoothRunAgrees(s: State, steps: seq<Step>, u: UserId, v: VmId)
    requires Agrees(s) && s.failed == {} && s.dropped == {} && SmoothRun(s, steps)
    ensures var end := RunAll(s, steps);
            && (CanConnect(end.db, u, v) ==> Entry(end.index, (u, v)) != {})
            && (Entry(end.index, (u, v)) != {} ==> CanConnect(end.db, u, v) || (u, v) in end.lapsed)
    decreases |steps|
  {
    hide Apply, Smooth, CanConnect, WellFormed;
    if steps == [] {
      assert Covered(s, u, v) && Justified(s, u, v);
    } else {
      StepAgrees(s, steps[0]);
      SmoothStepRecordsNothing(s, steps[0]);
      SmoothRunAgrees(Apply(s, steps[0]), steps[1..], u, v);
    }
  }

  // -- Where the code does empty the index early ----------------------------------------

  /** An unhindered sweep keeps the index complete exactly when no stale pair has another live path. */
  lemma SweepKeepsCover(s: State)
    requires Agrees(s) && s.failed == {} && s.dropped == {}
    ensures var after := SweptUp(s, {}, map[]);
            (forall u, v :: CanConnect(after.db, u, v) ==> Entry(after.index, (u, v)) != {}) <==>
            (forall u, v :: IsStale(s.db, u, v) ==> !CanConnect(s.db, u, v))
  {
    var after := SweptUp(s, {}, map[]);
    hide WellFormed, CanConnect, IsStale, Sweep;
    forall u, v ensures CanConnect(s.db, u, v) <==> CanConnect(after.db, u, v) { SweptAccess(s.db, {}, u, v); }
    forall u, v ensures CanConnect(s.db, u, v) ==> Entry(s.index, (u, v)) != {} {
      assert Covered(s, u, v) && Justified(s, u, v);
    }
    forall u, v ensures Entry(after.index, (u, v)) == if IsStale(s.db, u, v) then {} else Entry(s.index, (u, v)) {}
  }

  /**
   An online deletion takes index entries from an account that keeps its access exactly when the early
   checks pass and the account is the initial or the last active administrator.
   */
  lemma LateRefusalDropsIndex(s: State, actor: UserId, t: UserId, v: VmId)
    requires Entry(s.index, (t, v)) != {} && CanConnect(s.db, t, v)
    ensures var after := UserDeleted(s, actor, t, false);
            Entry(after.index, (t, v)) == {} && CanConnect(after.db, t, v) <==>
            EarlyDeletionRefusal(s.db, actor, t).None? &&
            (InitialAdmin(s.db, t) || (LiveAdmin(s.db, t) && !OtherActiveAdmin(s.db, t)))
  {
    var after := UserDeleted(s, actor, t, false);
    if DeleteUser(s.db, actor, t).reply.Done? {
      DeletedUserReachesNothing(s.db, actor, t, v);
    } else {
      assert after.db == s.db;
    }
    hide EarlyDeletionRefusal, InitialAdmin, LiveAdmin, OtherActiveAdmin, CanConnect, DropUser;
  }

  // -- Protocols ---------------------------------------------------------------------------

  /** A touched pair ends with exactly its allowed protocols. */
  lemma TouchedProtocolsExact(s: State, actor: UserId, req: Request, broken: Broken, u: UserId, v: VmId)
    requires Serve(s.db, actor, req).reply.Done?
    requires (u, v) in Touched(s.db, Serve(s.db, actor, req).db, req) && (u, v) !in broken
    ensures var after := Served(s, actor, req, broken); Entry(after.index, (u, v)) == Allowed(after.db, u, v)
  {
    hide Serve, Touched, Allowed;
  }
}
