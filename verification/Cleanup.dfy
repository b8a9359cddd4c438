/**
 What becomes of index entries whose access has lapsed: the sweep can revoke only what some row
 still shows, so the question is which steps remove the last such row from under an entry.
 */
module Cleanup {
  import opened Common
  import opened Iam
  import opened Tables
  import opened Guac
  import opened Agreement

  /** The index still opens what the user can no longer reach. */
  ghost predicate Exposed(s: State, u: UserId, v: VmId) {
    Entry(s.index, (u, v)) != {} && !CanConnect(s.db, u, v)
  }

  /** Every such entry is one the sweep would find. */
  ghost predicate Findable(s: State) {
    forall u, v :: Exposed(s, u, v) ==> IsStale(s.db, u, v)
  }

  /** An unhindered sweep leaves reachable entries only, if and only if every exposed entry is findable. */
  lemma SweepClearsFindable(s: State)
    ensures var after := SweptUp(s, {}, map[]);
            (forall u, v :: !Exposed(after, u, v)) <==> Findable(s)
  {
    var after := SweptUp(s, {}, map[]);
    hide CanConnect, IsStale, Sweep;
    forall u, v ensures Exposed(after, u, v) <==> Exposed(s, u, v) && !IsStale(s.db, u, v) {
      SweptAccess(s.db, {}, u, v);
    }
  }

  /** So without failures it makes the index equal to effective access exactly when no stale pair is reachable and every exposed one is stale. */
  lemma SweepIsExact(s: State)
    requires Agrees(s) && s.failed == {} && s.dropped == {}
    ensures var after := SweptUp(s, {}, map[]);
            (forall u, v :: Entry(after.index, (u, v)) != {} <==> CanConnect(after.db, u, v)) <==>
            Findable(s) && forall u, v :: IsStale(s.db, u, v) ==> !CanConnect(s.db, u, v)
  {
    SweepClearsFindable(s);
    SweepKeepsCover(s);
    var after := SweptUp(s, {}, map[]);
    hide SweptUp, CanConnect, IsStale, Agrees, Findable;
    if forall u, v :: !Exposed(after, u, v) {
      forall u, v | Entry(after.index, (u, v)) != {} ensures CanConnect(after.db, u, v) { assert !Exposed(after, u, v); }
    }
  }

  // -- Which steps take the last row away ------------------------------------------------

  /** The sweep would find the pair without looking at group `g`. */
  predicate StaleBesides(db: Db, g: GroupId, u: UserId, v: VmId) {
    DeadDirect(db, u, v) || exists k :: k in db.members && k.1 == u && k.0 != g && ShownBy(db, k.0, u, v)
  }

  lemma RevokeLeavesStale(db: Db, g: GroupId, w: VmId, u: UserId, v: VmId)
    ensures IsStale(DropGroupVm(db, g, w), u, v) <==> if v == w then StaleBesides(db, g, u, v) else IsStale(db, u, v)
  {
    hide Live;
    var after := DropGroupVm(db, g, w);
    forall k | k in db.members && k.1 == u
      ensures ShownBy(after, k.0, u, v) <==> ShownBy(db, k.0, u, v) && !(v == w && k.0 == g)
    {
    }
    hide ShownBy;
    assert DeadDirect(after, u, v) <==> DeadDirect(db, u, v);
  }

  lemma DeletionLeavesStale(db: Db, g: GroupId, u: UserId, v: VmId)
    ensures IsStale(DropGroup(db, g), u, v) <==> StaleBesides(db, g, u, v)
  {
    hide Live;
    var after := DropGroup(db, g);
    forall k | k in db.members && k.1 == u && k.0 != g ensures k in after.members && (ShownBy(after, k.0, u, v) <==> ShownBy(db, k.0, u, v)) {
    }
    assert DeadDirect(after, u, v) <==> DeadDirect(db, u, v);
  }

  /** After a sweep only direct rows whose revocation failed still show anything: dead group rows go whatever failed. */
  lemma SweepLeavesStale(db: Db, stuck: set<Pair>, u: UserId, v: VmId)
    ensures IsStale(Sweep(db, stuck), u, v) <==> (u, v) in stuck && DeadDirect(db, u, v)
  {
    hide Live;
    var after := Sweep(db, stuck);
    forall k | k in after.members ensures !ShownBy(after, k.0, k.1, v) {}
  }

  /** No other accepted request, and no refused one, takes a pair it does not re-sync out of the sweep's sight. */
  lemma StaleStays(db: Db, actor: UserId, req: Request, u: UserId, v: VmId)
    requires IsStale(db, u, v) && !req.ReqDeleteUser?
    requires var out := Serve(db, actor, req);
             out.reply.Done? ==> !req.ReqDeleteGroup? && !req.ReqRevokeVm? && (u, v) !in Touched(db, out.db, req)
    ensures IsStale(Serve(db, actor, req).db, u, v)
  {
    hide Serve, Touched, SameReach, IsStale;
    var out := Serve(db, actor, req);
    if !MovesPaths(req) {
      QuietReach(db, actor, req);
      SameReachSameStale(out.db, db, u, v);
    } else if out.reply.Refused? {
      MoverRefused(db, actor, req);
      SameReachSameStale(db, out.db, u, v);
    } else {
      MovedStale(db, actor, req, u, v);
    }
  }

  lemma MovedStale(db: Db, actor: UserId, req: Request, u: UserId, v: VmId)
    requires IsStale(db, u, v) && (req.ReqAddMember? || req.ReqRemoveMember? || req.ReqGrantVm?)
    requires var out := Serve(db, actor, req); out.reply.Done? && (u, v) !in Touched(db, out.db, req)
    ensures IsStale(Serve(db, actor, req).db, u, v)
  {
    hide AddMemberRefusal, RemoveMemberRefusal, GrantVmRefusal, IsStale, PutMember, DropMember, PutGroupVm, Cross, VmIds, LiveMembers;
    match req
    case ReqAddMember(g, t, e) => PutMemberStale(db, g, t, e, u, v);
    case ReqRemoveMember(g, t) => DropMemberStale(db, g, t, u, v);
    case ReqGrantVm(g, w, ps, e) => PutGroupVmStale(db, g, w, VmGrant(ps, e), u, v);
  }

  lemma SameReachSameStale(a: Db, b: Db, u: UserId, v: VmId)
    requires SameReach(a, b)
    ensures IsStale(a, u, v) <==> IsStale(b, u, v)
  {
    hide Live;
  }

  lemma PutMemberStale(db: Db, g: GroupId, t: UserId, e: Expiry, u: UserId, v: VmId)
    requires IsStale(db, u, v) && (u, v) !in Cross({t}, VmIds(PutMember(db, g, t, e), g))
    ensures IsStale(PutMember(db, g, t, e), u, v)
  {
    hide Live;
    var after := PutMember(db, g, t, e);
    if k :| k in db.members && k.1 == u && ShownBy(db, k.0, u, v) {
      assert (k.0, v) in after.groupVms && k in after.members;
      assert ShownBy(after, k.0, u, v);
    }
  }

  lemma DropMemberStale(db: Db, g: GroupId, t: UserId, u: UserId, v: VmId)
    requires IsStale(db, u, v) && (u, v) !in Cross({t}, VmIds(DropMember(db, g, t), g))
    ensures IsStale(DropMember(db, g, t), u, v)
  {
    hide Live;
    var after := DropMember(db, g, t);
    if k :| k in db.members && k.1 == u && ShownBy(db, k.0, u, v) {
      assert (k.0, v) in after.groupVms;
      assert k in after.members && ShownBy(after, k.0, u, v);
    }
  }

  lemma PutGroupVmStale(db: Db, g: GroupId, w: VmId, grant: VmGrant, u: UserId, v: VmId)
    requires IsStale(db, u, v) && (u, v) !in Cross(LiveMembers(PutGroupVm(db, g, w, grant), g), {w})
    ensures IsStale(PutGroupVm(db, g, w, grant), u, v)
  {
    hide Live;
    var after := PutGroupVm(db, g, w, grant);
    if k :| k in db.members && k.1 == u && ShownBy(db, k.0, u, v) {
      assert k in after.members && (k.0, v) in after.groupVms;
      assert ShownBy(after, k.0, u, v);
    }
  }

  /** A pair that loses its last live path to the clock is one the sweep will find. */
  lemma LapseIsStale(db: Db, to: int, u: UserId, v: VmId)
    requires CanConnect(db, u, v) && !CanConnect(Advance(db, to), u, v)
    ensures IsStale(Advance(db, to), u, v)
  {
    hide Opens;
    var later := Advance(db, to);
    assert later == db || later == db.(now := to);
    var path :| LivePath(db, u, v, path) && Opens(GrantOn(db, u, v, path));
    assert !LivePath(later, u, v, path);
    if path.Via? { assert (path.group, u) in later.members && ShownBy(later, path.group, u, v); }
  }

  lemma StaleAges(db: Db, to: int, u: UserId, v: VmId)
    requires IsStale(db, u, v)
    ensures IsStale(Advance(db, to), u, v)
  {
    var later := Advance(db, to);
    assert later == db || (later == db.(now := to) && to >= db.now);
    if k :| k in db.members && k.1 == u && ShownBy(db, k.0, u, v) {
      assert k in later.members && ShownBy(later, k.0, u, v);
    }
  }

  // -- One step ----------------------------------------------------------------------------

  /** Every failed attempt of an accepted request left nothing, or its pair is reachable or stale afterwards. */
  ghost predicate Mended(s: State, actor: UserId, req: Request, broken: Broken) {
    var after := Serve(s.db, actor, req).db;
    forall u, v :: ReSynced(s.db, actor, req, u, v) && (u, v) in broken && broken[(u, v)] != {} ==>
      CanConnect(after, u, v) || IsStale(after, u, v)
  }

  /**
   What a step must leave a row for. Revoking a VM or deleting a group: every exposed pair it does not
   re-sync is shown by something else. Any endpoint: its failed attempts are mended. Deleting a user while
   Guacamole is away: the user has no entries. A sweep: every exposed pair whose revocation fails and
   leaves something has a dead direct row. Every other step is free.
   */
  ghost predicate Spares(s: State, step: Step) {
    match step.event
    case Call(actor, ReqDeleteUser(t)) =>
      step.offline && DeleteUserRefusal(s.db, actor, t).None? ==> forall v :: Entry(s.index, (t, v)) == {}
    case Call(actor, req) => Mended(s, actor, req, step.broken) && SparesRows(s, actor, req)
    case Swept(stuck) =>
      var left := Pruned(s.index, s.db, stuck, step.broken);
      forall u, v ::
        (u, v) in stuck && IsStale(s.db, u, v) && !CanConnect(s.db, u, v) && Entry(left, (u, v)) != {} ==> DeadDirect(s.db, u, v)
    case _ => true
  }

  ghost predicate SparesRows(s: State, actor: UserId, req: Request) {
    match req
    case ReqRevokeVm(g, w) =>
      RevokeVmRefusal(s.db, actor, g).None? ==>
        forall u :: Exposed(s, u, w) && u !in LiveMembers(s.db, g) ==> StaleBesides(s.db, g, u, w)
    case ReqDeleteGroup(g) =>
      GroupRefusal(s.db, actor, g).None? ==>
        forall u, v :: Exposed(s, u, v) && (u, v) !in Cross(LiveMembers(s.db, g), VmIds(s.db, g)) ==> StaleBesides(s.db, g, u, v)
    case _ => true
  }

  lemma ReSyncedExposed(s: State, actor: UserId, req: Request, broken: Broken, u: UserId, v: VmId)
    requires ReSynced(s.db, actor, req, u, v)
    ensures var after := Served(s, actor, req, broken);
            Exposed(after, u, v) <==> (u, v) in broken && broken[(u, v)] != {} && !CanConnect(after.db, u, v)
  {
    var after := Served(s, actor, req, broken);
    AllowedMeansConnect(after.db, u, v);
    if (u, v) !in broken { TouchedProtocolsExact(s, actor, req, broken, u, v); }
    hide Serve, Touched, CanConnect, Allowed;
  }

  lemma UntouchedExposed(s: State, actor: UserId, req: Request, broken: Broken, u: UserId, v: VmId)
    requires !req.ReqDeleteUser? && !ReSynced(s.db, actor, req, u, v)
    ensures Exposed(Served(s, actor, req, broken), u, v) <==> Exposed(s, u, v)
  {
    var after := Served(s, actor, req, broken);
    UntouchedPathsStay(s.db, actor, req, u, v);
    SamePathsSameAccess(s.db, after.db, u, v);
    hide Serve, Touched, CanConnect, SamePath, Allowed;
  }

  /** Every exposed pair the request does not re-sync is stale afterwards. */
  ghost predicate RestStale(s: State, actor: UserId, req: Request) {
    forall u, v :: Exposed(s, u, v) && !ReSynced(s.db, actor, req, u, v) ==> IsStale(Serve(s.db, actor, req).db, u, v)
  }

  lemma ServedExposed(s: State, actor: UserId, req: Request, broken: Broken, u: UserId, v: VmId)
    requires !req.ReqDeleteUser?
    ensures var after := Served(s, actor, req, broken);
            Exposed(after, u, v) <==>
            if ReSynced(s.db, actor, req, u, v) then (u, v) in broken && broken[(u, v)] != {} && !CanConnect(after.db, u, v)
            else Exposed(s, u, v)
  {
    hide Serve, Served, ReSynced, Exposed, CanConnect;
    if ReSynced(s.db, actor, req, u, v) {
      ReSyncedExposed(s, actor, req, broken, u, v);
    } else {
      UntouchedExposed(s, actor, req, broken, u, v);
    }
  }

  lemma ServedFindable(s: State, actor: UserId, req: Request, broken: Broken)
    requires !req.ReqDeleteUser?
    ensures Findable(Served(s, actor, req, broken)) <==> Mended(s, actor, req, broken) && RestStale(s, actor, req)
  {
    hide Serve, Served, ReSynced, IsStale, Exposed, CanConnect;
    var after := Served(s, actor, req, broken);
    ServedTables(s, actor, req, broken);
    forall u, v
      ensures Exposed(after, u, v) <==>
              if ReSynced(s.db, actor, req, u, v) then (u, v) in broken && broken[(u, v)] != {} && !CanConnect(after.db, u, v)
              else Exposed(s, u, v)
    {
      ServedExposed(s, actor, req, broken, u, v);
    }
  }

  lemma OrdinaryRestStale(s: State, actor: UserId, req: Request)
    requires Findable(s) && !req.ReqDeleteUser?
    requires req.ReqDeleteGroup? || req.ReqRevokeVm? ==> Serve(s.db, actor, req).reply.Refused?
    ensures RestStale(s, actor, req)
  {
    hide Serve, Touched, IsStale, Exposed;
    forall u, v | Exposed(s, u, v) && !ReSynced(s.db, actor, req, u, v) ensures IsStale(Serve(s.db, actor, req).db, u, v) {
      StaleStays(s.db, actor, req, u, v);
    }
  }

  lemma RevokeRestStale(s: State, actor: UserId, g: GroupId, w: VmId)
    requires Findable(s) && RevokeVmRefusal(s.db, actor, g).None?
    ensures RestStale(s, actor, ReqRevokeVm(g, w)) <==> SparesRows(s, actor, ReqRevokeVm(g, w))
  {
    var req := ReqRevokeVm(g, w);
    AcceptedRevoke(s.db, actor, g, w);
    hide Serve, Touched, Exposed, IsStale, StaleBesides, RevokeVmRefusal, DropGroupVm, LiveMembers;
    forall u, v ensures ReSynced(s.db, actor, req, u, v) <==> v == w && u in LiveMembers(s.db, g) {}
    forall u, v
      ensures IsStale(Serve(s.db, actor, req).db, u, v) <==> if v == w then StaleBesides(s.db, g, u, v) else IsStale(s.db, u, v)
    {
      RevokeLeavesStale(s.db, g, w, u, v);
    }
  }

  lemma AcceptedRevoke(db: Db, actor: UserId, g: GroupId, w: VmId)
    requires RevokeVmRefusal(db, actor, g).None?
    ensures var req := ReqRevokeVm(g, w);
            && Serve(db, actor, req) == Outcome(DropGroupVm(db, g, w), Done)
            && forall u, v :: (u, v) in Touched(db, DropGroupVm(db, g, w), req) <==> v == w && u in LiveMembers(db, g)
  {
    hide RevokeVmRefusal, Live;
  }

  lemma DeletionRestStale(s: State, actor: UserId, g: GroupId)
    requires Findable(s) && GroupRefusal(s.db, actor, g).None?
    ensures RestStale(s, actor, ReqDeleteGroup(g)) <==> SparesRows(s, actor, ReqDeleteGroup(g))
  {
    var req := ReqDeleteGroup(g);
    AcceptedDeletion(s.db, actor, g);
    hide Serve, Touched, Exposed, IsStale, StaleBesides, GroupRefusal, DropGroup, Cross, LiveMembers, VmIds;
    forall u, v ensures ReSynced(s.db, actor, req, u, v) <==> (u, v) in Cross(LiveMembers(s.db, g), VmIds(s.db, g)) {}
    forall u, v ensures IsStale(Serve(s.db, actor, req).db, u, v) <==> StaleBesides(s.db, g, u, v) {
      DeletionLeavesStale(s.db, g, u, v);
    }
  }

  lemma AcceptedDeletion(db: Db, actor: UserId, g: GroupId)
    requires GroupRefusal(db, actor, g).None?
    ensures var req := ReqDeleteGroup(g);
            && Serve(db, actor, req) == Outcome(DropGroup(db, g), Done)
            && Touched(db, DropGroup(db, g), req) == Cross(LiveMembers(db, g), VmIds(db, g))
  {
    hide GroupRefusal, Cross, LiveMembers, VmIds, DropGroup;
  }

  lemma SweepIsSpared(s: State, stuck: set<Pair>, broken: Broken)
    requires Findable(s)
    ensures Findable(SweptUp(s, stuck, broken)) <==> Spares(s, Step(Swept(stuck), broken, false))
  {
    var after := SweptUp(s, stuck, broken);
    forall u, v ensures IsStale(after.db, u, v) <==> (u, v) in stuck && DeadDirect(s.db, u, v) { SweepLeavesStale(s.db, stuck, u, v); }
    forall u, v ensures CanConnect(s.db, u, v) <==> CanConnect(after.db, u, v) { SweptAccess(s.db, stuck, u, v); }
    hide IsStale, CanConnect, Sweep, DeadDirect;
    forall u, v | Exposed(after, u, v) ensures IsStale(s.db, u, v) && (u, v) in stuck {
      assert !IsStale(s.db, u, v) ==> Exposed(s, u, v);
    }
    forall u, v | (u, v) in stuck && IsStale(s.db, u, v) && !CanConnect(s.db, u, v) && Entry(after.index, (u, v)) != {}
      ensures Exposed(after, u, v)
    {
    }
  }

  lemma TickKeepsFindable(s: State, to: int)
    requires Findable(s)
    ensures Findable(Ticked(s, to))
  {
    var after := Ticked(s, to);
    forall u, v | Exposed(after, u, v) ensures IsStale(after.db, u, v) {
      if CanConnect(s.db, u, v) { LapseIsStale(s.db, to, u, v); } else { StaleAges(s.db, to, u, v); }
    }
  }

  lemma OthersSurviveDeletion(db: Db, actor: UserId, t: UserId, u: UserId, v: VmId)
    requires u != t || DeleteUser(db, actor, t).reply.Refused?
    ensures var after := DeleteUser(db, actor, t).db;
            (CanConnect(after, u, v) <==> CanConnect(db, u, v)) && (IsStale(after, u, v) <==> IsStale(db, u, v))
  {
    var out := DeleteUser(db, actor, t);
    forall path ensures SamePath(db, out.db, u, v, path) { DeleteUserPath(db, actor, t, u, v, path); }
    SamePathsSameAccess(db, out.db, u, v);
    hide DeleteUserRefusal, CanConnect, SamePath;
    if out.reply.Done? { DropUserStale(db, t, u, v); }
  }

  lemma DropUserStale(db: Db, t: UserId, u: UserId, v: VmId)
    requires u != t
    ensures IsStale(DropUser(db, t), u, v) <==> IsStale(db, u, v)
  {
    hide Live;
    var after := DropUser(db, t);
    forall k | k in db.members && k.1 == u ensures k in after.members && (ShownBy(after, k.0, u, v) <==> ShownBy(db, k.0, u, v)) {}
    assert DeadDirect(after, u, v) <==> DeadDirect(db, u, v);
  }

  lemma UserDeletionFindable(s: State, actor: UserId, t: UserId, offline: bool)
    requires Findable(s)
    ensures Findable(UserDeleted(s, actor, t, offline)) <==>
            (offline && DeleteUser(s.db, actor, t).reply.Done? ==> forall v :: Entry(s.index, (t, v)) == {})
  {
    var after := UserDeleted(s, actor, t, offline);
    var out := DeleteUser(s.db, actor, t);
    if out.reply.Done? { DeletionAsksFirst(s.db, actor, t); }
    hide DeleteUser, DropsGuacUser, CanConnect, IsStale;
    assert after.db == out.db;
    forall u, v | u != t || out.reply.Refused? ensures Exposed(after, u, v) ==> IsStale(after.db, u, v) {
      OthersSurviveDeletion(s.db, actor, t, u, v);
      assert Exposed(after, u, v) ==> Exposed(s, u, v);
    }
    forall v | out.reply.Done? ensures !IsStale(after.db, t, v) && (Exposed(after, t, v) <==> offline && Entry(s.index, (t, v)) != {}) {
      DeletedUserReachesNothing(s.db, actor, t, v);
      DeletedUserIsUnseen(s.db, actor, t, v);
    }
    hide Exposed, UserDeleted;
  }

  lemma DeletedUserIsUnseen(db: Db, actor: UserId, t: UserId, v: VmId)
    requires DeleteUser(db, actor, t).reply.Done?
    ensures !IsStale(DeleteUser(db, actor, t).db, t, v)
  {
    hide DeleteUserRefusal, Live;
  }

  lemma StrangersKeepFindable(s: State, e: Event)
    requires Findable(s) && (e.SignUp? || e.AskToJoin?)
    ensures Findable(s.(db := Next(s.db, e)))
  {
    var after := s.(db := Next(s.db, e));
    StrangerReach(s.db, e);
    forall u, v ensures IsStale(after.db, u, v) <==> IsStale(s.db, u, v) { SameReachSameStale(after.db, s.db, u, v); }
    forall u, v ensures CanConnect(after.db, u, v) <==> CanConnect(s.db, u, v) {
      forall path ensures SamePath(after.db, s.db, u, v, path) { SameReachSamePath(after.db, s.db, u, v, path); }
      SamePathsSameAccess(after.db, s.db, u, v);
    }
    hide Next, IsStale, CanConnect, SamePath, SameReach;
  }

  /** From a findable state a step leads to a findable state exactly when it spares. */
  lemma StepFindable(s: State, step: Step)
    requires Findable(s)
    ensures Findable(Apply(s, step)) <==> Spares(s, step)
  {
    match step.event
    case Tick(to) => TickKeepsFindable(s, to);
    case Swept(stuck) => SweepIsSpared(s, stuck, step.broken);
    case Call(actor, req) => CallFindable(s, actor, req, step.broken, step.offline);
    case _ => StrangersKeepFindable(s, step.event);
  }

  lemma CallFindable(s: State, actor: UserId, req: Request, broken: Broken, offline: bool)
    requires Findable(s)
    ensures var step := Step(Call(actor, req), broken, offline); Findable(Apply(s, step)) <==> Spares(s, step)
  {
    if req.ReqDeleteUser? {
      UserDeletionFindable(s, actor, req.target, offline);
      hide Findable, UserDeleted, DeleteUserRefusal;
    } else {
      ServedFindable(s, actor, req, broken);
      RestIsSpared(s, actor, req);
      hide Findable, Served, Mended, RestStale, SparesRows;
    }
  }

  lemma RestIsSpared(s: State, actor: UserId, req: Request)
    requires Findable(s) && !req.ReqDeleteUser?
    ensures RestStale(s, actor, req) <==> SparesRows(s, actor, req)
  {
    hide RestStale, RevokeVmRefusal, GroupRefusal, DropGroup, DropGroupVm, Findable;
    if req.ReqRevokeVm? && RevokeVmRefusal(s.db, actor, req.group).None? {
      RevokeRestStale(s, actor, req.group, req.vm);
    } else if req.ReqDeleteGroup? && GroupRefusal(s.db, actor, req.group).None? {
      DeletionRestStale(s, actor, req.group);
    } else {
      if req.ReqRevokeVm? || req.ReqDeleteGroup? { assert Serve(s.db, actor, req).reply.Refused?; }
      hide Serve;
      OrdinaryRestStale(s, actor, req);
    }
  }

  // -- Whole runs ----------------------------------------------------------------------------

  ghost predicate AlwaysFindable(s: State, steps: seq<Step>)
    decreases |steps|
  {
    Findable(s) && (steps != [] ==> AlwaysFindable(Apply(s, steps[0]), steps[1..]))
  }

  ghost predicate AlwaysSpares(s: State, steps: seq<Step>)
    decreases |steps|
  {
    steps != [] ==> Spares(s, steps[0]) && AlwaysSpares(Apply(s, steps[0]), steps[1..])
  }

  /** Over every run, with any failures, the sweep could find every exposed entry at every point if and only if every step spares. */
  lemma {:induction false} RunFindable(s: State, steps: seq<Step>)
    requires Findable(s)
    ensures AlwaysFindable(s, steps) <==> AlwaysSpares(s, steps)
    decreases |steps|
  {
    if steps != [] {
      StepFindable(s, steps[0]);
      hide Findable, Spares, Apply;
      if Spares(s, steps[0]) { RunFindable(Apply(s, steps[0]), steps[1..]); }
    }
  }

  lemma {:induction false} SparingRunStaysFindable(s: State, steps: seq<Step>)
    requires AlwaysFindable(s, steps)
    ensures Findable(RunAll(s, steps))
    decreases |steps|
  {
    hide Findable, Apply;
    if steps != [] { SparingRunStaysFindable(Apply(s, steps[0]), steps[1..]); }
  }

  /**
   A smooth run that spares, followed by an unhindered sweep over pairs none of which is still
   reachable, ends with the index equal to effective access.
   */
  lemma SweptRunIsExact(s: State, steps: seq<Step>)
    requires Agrees(s) && s.failed == {} && s.dropped == {} && Findable(s)
    requires SmoothRun(s, steps) && AlwaysSpares(s, steps)
    requires var end := RunAll(s, steps); forall u, v :: IsStale(end.db, u, v) ==> !CanConnect(end.db, u, v)
    ensures var swept := SweptUp(RunAll(s, steps), {}, map[]);
            forall u, v :: Entry(swept.index, (u, v)) != {} <==> CanConnect(swept.db, u, v)
  {
    hide Agrees, Findable, Spares, SweptUp, CanConnect, IsStale, Apply, Smooth;
    RunFindable(s, steps);
    SparingRunStaysFindable(s, steps);
    RunAgrees(s, steps);
    SmoothRunRecordsNothing(s, steps);
    SweepIsExact(RunAll(s, steps));
  }

  lemma {:induction false} SmoothRunRecordsNothing(s: State, steps: seq<Step>)
    requires SmoothRun(s, steps) && s.failed == {} && s.dropped == {}
    ensures RunAll(s, steps).failed == {} && RunAll(s, steps).dropped == {}
    decreases |steps|
  {
    hide Smooth, Apply;
    if steps != [] {
      SmoothStepRecordsNothing(s, steps[0]);
      SmoothRunRecordsNothing(Apply(s, steps[0]), steps[1..]);
    }
  }

  // -- The gap in its three forms -----------------------------------------------------------

  /** The user's only tie to the VM is membership of `g`, which is over. */
  predicate LapsedMember(db: Db, g: GroupId, u: UserId, v: VmId) {
    && (g, u) in db.members && !Live(db.members[(g, u)], db.now) && (g, v) in db.groupVms
    && (u, v) !in db.vmAccess
    && (forall k :: k in db.members && k.1 == u && (k.0, v) in db.groupVms ==> k.0 == g)
  }

  lemma LapsedMemberIs(s: State, g: GroupId, u: UserId, v: VmId)
    requires LapsedMember(s.db, g, u, v) && Entry(s.index, (u, v)) != {}
    ensures Exposed(s, u, v) && IsStale(s.db, u, v) && u !in LiveMembers(s.db, g) && !DeadDirect(s.db, u, v)
    ensures !StaleBesides(s.db, g, u, v)
  {
    hide Opens;
    assert (g, u) in s.db.members && ShownBy(s.db, g, u, v);
    forall path ensures !LivePath(s.db, u, v, path) {
      assert path.Via? && (path.group, u) in s.db.members && (path.group, v) in s.db.groupVms ==> (path.group, u).0 == g;
    }
  }

  /** A sweep alone clears a lapsed member's connections. */
  lemma SweepClearsLapsedMember(s: State, g: GroupId, u: UserId, v: VmId)
    requires LapsedMember(s.db, g, u, v)
    ensures Entry(SweptUp(s, {}, map[]).index, (u, v)) == {}
  {
    assert (g, u) in s.db.members && ShownBy(s.db, g, u, v);
    hide IsStale, CanConnect, Sweep, LapsedMember;
    assert IsStale(s.db, u, v);
  }

  /** No row ties the user to the VM. */
  predicate Unseen(db: Db, u: UserId, v: VmId) {
    (u, v) !in db.vmAccess && forall k :: k in db.members && k.1 == u ==> (k.0, v) !in db.groupVms
  }

  /** Time passes, the sweep runs with any failures, strangers come, and requests arrive that leave memberships, VM grants and accounts alone. */
  predicate Idle(e: Event) {
    e.Call? ==> !MovesPaths(e.req)
  }

  predicate AllIdle(steps: seq<Step>) {
    forall i :: 0 <= i < |steps| ==> Idle(steps[i].event)
  }

  lemma UnseenIsUntouched(s: State, actor: UserId, req: Request, u: UserId, v: VmId)
    requires Unseen(s.db, u, v) && !MovesPaths(req)
    ensures !ReSynced(s.db, actor, req, u, v) && Unseen(Serve(s.db, actor, req).db, u, v)
  {
    QuietReach(s.db, actor, req);
    hide Serve, Live;
  }

  lemma UnseenStep(s: State, step: Step, u: UserId, v: VmId)
    requires Exposed(s, u, v) && Unseen(s.db, u, v) && Idle(step.event)
    ensures Exposed(Apply(s, step), u, v) && Unseen(Apply(s, step).db, u, v)
  {
    match step.event
    case Call(actor, req) =>
      UnseenIsUntouched(s, actor, req, u, v);
      UntouchedExposed(s, actor, req, step.broken, u, v);
      ServedTables(s, actor, req, step.broken);
      hide Served, Serve, Exposed, ReSynced;
    case Tick(to) =>
      if CanConnect(Advance(s.db, to), u, v) { LaterAccess(s.db, to, u, v); }
      hide CanConnect;
    case Swept(stuck) =>
      SweptAccess(s.db, stuck, u, v);
      hide CanConnect;
    case _ =>
      StrangerReach(s.db, step.event);
      var after := Next(s.db, step.event);
      forall path ensures SamePath(after, s.db, u, v, path) { SameReachSamePath(after, s.db, u, v, path); }
      SamePathsSameAccess(after, s.db, u, v);
      hide Next, CanConnect, SamePath;
  }

  /** A connection no row accounts for stays open through every idle run. */
  lemma {:induction false} UnseenForever(s: State, steps: seq<Step>, u: UserId, v: VmId)
    requires Exposed(s, u, v) && Unseen(s.db, u, v) && AllIdle(steps)
    ensures Exposed(RunAll(s, steps), u, v)
    decreases |steps|
  {
    if steps != [] {
      UnseenStep(s, steps[0], u, v);
      hide Exposed, Unseen, Apply, Idle;
      UnseenForever(Apply(s, steps[0]), steps[1..], u, v);
    }
  }

  /** They outlive every idle run, and so every later sweep, once the VM is revoked from the group, */
  lemma RevokeStrandsLapsedMember(s: State, actor: UserId, g: GroupId, u: UserId, v: VmId, later: seq<Step>)
    requires LapsedMember(s.db, g, u, v) && Entry(s.index, (u, v)) != {} && RevokeVmRefusal(s.db, actor, g).None?
    requires AllIdle(later)
    ensures Exposed(RunAll(Served(s, actor, ReqRevokeVm(g, v), map[]), later), u, v)
  {
    LapsedMemberIs(s, g, u, v);
    AcceptedRevoke(s.db, actor, g, v);
    assert Unseen(DropGroupVm(s.db, g, v), u, v);
    ServedTables(s, actor, ReqRevokeVm(g, v), map[]);
    hide LapsedMember, RevokeVmRefusal, Exposed, Served, Serve, Touched, LiveMembers, DropGroupVm, Unseen;
    UntouchedExposed(s, actor, ReqRevokeVm(g, v), map[], u, v);
    UnseenForever(Served(s, actor, ReqRevokeVm(g, v), map[]), later, u, v);
  }

  /** once the group is deleted, */
  lemma DeletionStrandsLapsedMember(s: State, actor: UserId, g: GroupId, u: UserId, v: VmId, later: seq<Step>)
    requires LapsedMember(s.db, g, u, v) && Entry(s.index, (u, v)) != {} && GroupRefusal(s.db, actor, g).None?
    requires AllIdle(later)
    ensures Exposed(RunAll(Served(s, actor, ReqDeleteGroup(g), map[]), later), u, v)
  {
    LapsedMemberIs(s, g, u, v);
    AcceptedDeletion(s.db, actor, g);
    assert Unseen(DropGroup(s.db, g), u, v);
    ServedTables(s, actor, ReqDeleteGroup(g), map[]);
    hide LapsedMember, GroupRefusal, Exposed, Served, Serve, Touched, LiveMembers, VmIds, DropGroup, Unseen;
    UntouchedExposed(s, actor, ReqDeleteGroup(g), map[], u, v);
    UnseenForever(Served(s, actor, ReqDeleteGroup(g), map[]), later, u, v);
  }

  /** or once a sweep fails for the pair and leaves something: it prunes the rows all the same. */
  lemma FailedSweepStrandsLapsedMember(s: State, g: GroupId, u: UserId, v: VmId, broken: Broken, later: seq<Step>)
    requires LapsedMember(s.db, g, u, v) && Entry(s.index, (u, v)) != {}
    requires (u, v) in broken ==> broken[(u, v)] != {}
    requires AllIdle(later)
    ensures Exposed(RunAll(SweptUp(s, {(u, v)}, broken), later), u, v)
  {
    LapsedMemberIs(s, g, u, v);
    var swept := SweptUp(s, {(u, v)}, broken);
    SweptAccess(s.db, {(u, v)}, u, v);
    assert Unseen(Sweep(s.db, {(u, v)}), u, v);
    hide LapsedMember, IsStale, CanConnect, Sweep;
    assert Exposed(swept, u, v);
    hide SweptUp, Exposed, Unseen;
    UnseenForever(swept, later, u, v);
  }
}
