/** Deactivation: what it does to the account, and that it holds until somebody undoes it. */
module Accounts {
  import opened Common
  import opened Iam
  import opened Answers
  import opened Rows

  /** An accepted update sets the flag as asked; nobody else's changes, and names, marks and kept passwords stay. */
  lemma UpdateSets(db: Db, actor: UserId, t: UserId, active: Option<bool>, kind: Option<Kind>, secret: Option<string>, after: Db, u: UserId)
    requires Serve(db, actor, ReqUpdateUser(t, active, kind, secret)) == Outcome(after, Done)
    ensures t in db.users && t in after.users
    ensures active.Some? ==> (SignedIn(after, t) <==> active.value)
    ensures active.None? ==> (SignedIn(after, t) <==> SignedIn(db, t))
    ensures after.users[t].password == match secret case Some(p) => p case None => db.users[t].password
    ensures after.users[t].username == db.users[t].username && after.users[t].initialAdmin == db.users[t].initialAdmin
    ensures u != t ==> (u in after.users <==> u in db.users) && (u in db.users ==> after.users[u] == db.users[u])
  {
    var req := ReqUpdateUser(t, active, kind, secret);
    hide Serve, RoleRow, UserRoleRow, UserPermRow, GroupRow, MemberRow, LinkRow, GroupVmRow, VmAccessRow, PendingRow,
         Lacks, Clashes, Improper, Overreaches, Present;
    EveryAnswer(db, actor, req);
    AcceptedRows(db, actor, req, t, 0, Known(VmList), 0, 0, 0);
    AcceptedRows(db, actor, req, u, 0, Known(VmList), 0, 0, 0);
  }

  // -- While an account is out ------------------------------------------------------------------

  /** Every request of `t` is answered 401 and changes nothing. */
  ghost predicate TurnedAway(db: Db, t: UserId) {
    forall req :: Serve(db, t, req) == Outcome(db, Refused(Unauthorized))
  }

  /** That is what being absent or inactive means. */
  lemma AbsentIsTurnedAway(db: Db, t: UserId)
    ensures TurnedAway(db, t) <==> !Present(db, t)
  {
    hide Serve, Present, Lacks, Absent, Clashes, Improper, Overreaches;
    if Present(db, t) {
      EveryAnswer(db, t, ReqCreateGroup(0, ""));
      assert Serve(db, t, ReqCreateGroup(0, "")).reply != Refused(Unauthorized);
    } else {
      forall req ensures Serve(db, t, req) == Outcome(db, Refused(Unauthorized)) {
        EveryAnswer(db, t, req);
        RefusedRows(db, t, req, t, 0);
      }
    }
  }

  /** Somebody who may sets the flag again, also with a request refused later on, or an account is opened under the identifier. */
  ghost predicate Revives(db: Db, e: Event, t: UserId) {
    match e
    case Call(a, ReqUpdateUser(x, Some(true), kind, _)) =>
      x == t && t in db.users && Present(db, a) && Holds(db, a, Known(UsersManage)) && kind != Some(GUEST) && Tops(db, a, t)
    case Call(a, ReqCreateUser(x, name, secret, kind)) => x == t && Serve(db, a, ReqCreateUser(x, name, secret, kind)).reply.Done?
    case Call(a, ReqApprove(q, x, kind)) => x == t && Serve(db, a, ReqApprove(q, x, kind)).reply.Done?
    case SignUp(x, name, _) => x == t && t !in db.users && !exists u :: u in db.users && db.users[u].username == name
    case _ => false
  }

  lemma AcceptedRevives(db: Db, a: UserId, req: Request, t: UserId)
    requires !Present(db, t) && Serve(db, a, req).reply.Done?
    ensures Present(Serve(db, a, req).db, t) <==> Revives(db, Call(a, req), t)
  {
    hide Serve, RoleRow, UserRoleRow, UserPermRow, GroupRow, MemberRow, LinkRow, GroupVmRow, VmAccessRow, PendingRow, Holds, Tops, Clashes;
    EveryAnswer(db, a, req);
    AcceptedRows(db, a, req, t, 0, Known(VmList), 0, 0, 0);
    if req.ReqUpdateUser? { UpdateAsksUsers(db, a, req); }
  }

  lemma UpdateAsksUsers(db: Db, a: UserId, req: Request)
    requires req.ReqUpdateUser?
    ensures Lacks(db, a, req) <==> !Holds(db, a, Known(UsersManage))
  {
    hide Holds;
  }

  lemma RefusedRevives(db: Db, a: UserId, req: Request, t: UserId)
    requires !Present(db, t) && Serve(db, a, req).reply.Refused?
    ensures Present(Serve(db, a, req).db, t) <==> Revives(db, Call(a, req), t)
  {
    hide Serve, Holds, Tops, Lacks, Absent, Improper, Overreaches, Shielded;
    RefusedRows(db, a, req, t, 0);
  }

  /** One event lets an account that is out in again exactly when it revives it. */
  lemma OutUntilRevived(db: Db, e: Event, t: UserId)
    requires !Present(db, t)
    ensures Present(Next(db, e), t) <==> Revives(db, e, t)
  {
    match e
    case Call(a, req) =>
      hide Serve, Present, Revives;
      if Serve(db, a, req).reply.Done? { AcceptedRevives(db, a, req, t); } else { RefusedRevives(db, a, req, t); }
    case Tick(to) =>
    case Swept(stuck) =>
    case SignUp(newId, username, password) => SignedUpRows(db, newId, username, password, t, 0);
    case AskToJoin(request, username, password) => AskedRows(db, request, username, password, 0);
  }

  ghost predicate AlwaysTurnedAway(db: Db, es: seq<Event>, t: UserId)
    decreases |es|
  {
    TurnedAway(db, t) && (es != [] ==> AlwaysTurnedAway(Next(db, es[0]), es[1..], t))
  }

  ghost predicate NeverRevived(db: Db, es: seq<Event>, t: UserId)
    decreases |es|
  {
    es != [] ==> !Revives(db, es[0], t) && NeverRevived(Next(db, es[0]), es[1..], t)
  }

  /** Over every run from there, every request of the account is turned away at every point if and only if nothing revives it. */
  lemma {:induction false} OutOverRuns(db: Db, es: seq<Event>, t: UserId)
    requires !Present(db, t)
    ensures AlwaysTurnedAway(db, es, t) <==> NeverRevived(db, es, t)
    decreases |es|
  {
    AbsentIsTurnedAway(db, t);
    if es != [] {
      OutUntilRevived(db, es[0], t);
      AbsentIsTurnedAway(Next(db, es[0]), t);
      hide Present, TurnedAway, Revives, Next;
      if !Revives(db, es[0], t) { OutOverRuns(Next(db, es[0]), es[1..], t); }
    }
  }

  /** So from an accepted deactivation on. */
  lemma DeactivationHolds(db: Db, actor: UserId, t: UserId, kind: Option<Kind>, secret: Option<string>, after: Db, es: seq<Event>)
    requires Serve(db, actor, ReqUpdateUser(t, Some(false), kind, secret)) == Outcome(after, Done)
    ensures AlwaysTurnedAway(after, es, t) <==> NeverRevived(after, es, t)
  {
    UpdateSets(db, actor, t, Some(false), kind, secret, after, t);
    hide Serve, AlwaysTurnedAway, NeverRevived;
    OutOverRuns(after, es, t);
  }
}
