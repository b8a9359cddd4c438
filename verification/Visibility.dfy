/**
 Who sees which rows: the drift board, the audit log and the job list, each a loop over
 fetched rows, against the single-row rule the same code enforces elsewhere.
 */
module Visibility {
  import opened Common
  import opened Filtering
  import opened Iam

  /** The bearer as loaded for the request. */
  datatype User = User(id: UserId, roles: set<Kind>)

  predicate Privileged(user: User) {
    ADMIN in user.roles || OPERATOR in user.roles
  }

  /** `visibleTo`: privilege opens what is not private; a private VM needs a grant or ownership from anyone. */
  predicate VisibleTo(db: Db, user: User, v: VmId) {
    if v !in db.vms then Privileged(user)
    else if db.vms[v].privacy then HasAccessOrOwns(db, user.id, v)
    else Privileged(user) || HasAccess(db, user.id, v)
  }

  /** Access in the sense of the paths of `Iam`. */
  lemma AccessIsAPath(db: Db, u: UserId, v: VmId)
    ensures HasAccess(db, u, v) <==> exists path :: LivePath(db, u, v, path)
  {
    if exists path :: LivePath(db, u, v, path) {
      var path :| LivePath(db, u, v, path);
      if path.Via? { assert (path.group, v) in db.groupVms; }
    } else if HasAccess(db, u, v) {
      if (u, v) in db.vmAccess && Live(db.vmAccess[(u, v)].expires, db.now) {
        assert LivePath(db, u, v, Direct);
      } else {
        var k :| k in db.groupVms && k.1 == v && Live(db.groupVms[k].expires, db.now) && IsMember(db, k.0, u);
        assert LivePath(db, u, v, Via(k.0));
      }
    }
  }

  /** Access or ownership, read off the rows. */
  lemma AccessOrOwnsMeans(db: Db, u: UserId, v: VmId)
    ensures HasAccessOrOwns(db, u, v) <==> (exists path :: LivePath(db, u, v, path)) || (v in db.vms && db.vms[v].owner == Some(u))
  {
    AccessIsAPath(db, u, v);
    hide HasAccess, LivePath;
  }

  /**
   Administrators and operators see every VM that is not private, deleted ones included; others see
   those they have a live path to. A private VM shows to its owner and along live paths only, whoever asks.
   */
  lemma VisibleMeans(db: Db, user: User, v: VmId)
    ensures VisibleTo(db, user, v) <==>
            if v in db.vms && db.vms[v].privacy then db.vms[v].owner == Some(user.id) || exists path :: LivePath(db, user.id, v, path)
            else ADMIN in user.roles || OPERATOR in user.roles || (v in db.vms && exists path :: LivePath(db, user.id, v, path))
  {
    AccessOrOwnsMeans(db, user.id, v);
    AccessIsAPath(db, user.id, v);
    hide HasAccess, HasAccessOrOwns, LivePath;
  }

  // -- The drift board and the mutation gate ----------------------------------------

  datatype Finding = Finding(id: int, vm: Option<VmId>)

  /** `assertFindingVisible`: the gate in front of every mutation of a finding. */
  predicate GateAccepts(db: Db, user: User, f: Finding) {
    if f.vm.None? then Privileged(user) else VisibleTo(db, user, f.vm.value)
  }

  /** The board with its per-request memo shows exactly the fetched findings the gate accepts, in order. */
  method DriftBoard(db: Db, user: User, findings: seq<Finding>) returns (shown: seq<Finding>)
    ensures shown == Kept(findings, f => GateAccepts(db, user, f))
    ensures forall f :: f in shown <==>
              f in findings && if f.vm == None then ADMIN in user.roles || OPERATOR in user.roles else VisibleTo(db, user, f.vm.value)
  {
    forall f { KeptMembers(findings, x => GateAccepts(db, user, x), f); }
    hide VisibleTo;
    var keep := f => GateAccepts(db, user, f);
    var vmCache: map<VmId, bool> := map[];
    shown := [];
    for i := 0 to |findings|
      invariant shown == Kept(findings[..i], keep)
      invariant forall v :: v in vmCache ==> (vmCache[v] <==> VisibleTo(db, user, v))
    {
      KeptStep(findings, i, keep);
      var finding := findings[i];
      if finding.vm.Some? {
        var v := finding.vm.value;
        if v !in vmCache { vmCache := vmCache[v := VisibleTo(db, user, v)]; }
        if !vmCache[v] { continue; }
      } else if !Privileged(user) {
        continue;
      }
      shown := shown + [finding];
    }
    assert findings[..|findings|] == findings;
  }

  // -- The audit log -----------------------------------------------------------------

  datatype Entry = Entry(id: int, vm: Option<VmId>)

  /** The rule for one entry: history of a private or deleted VM needs a grant or ownership. */
  predicate MayRead(db: Db, u: UserId, e: Entry) {
    e.vm.None? || (e.vm.value in db.vms && !db.vms[e.vm.value].privacy) || HasAccessOrOwns(db, u, e.vm.value)
  }

  method WithoutPrivateEntries(db: Db, u: UserId, entries: seq<Entry>) returns (out: seq<Entry>)
    ensures out == Kept(entries, e => MayRead(db, u, e))
    ensures forall e :: e in out <==>
              e in entries &&
              match e.vm
              case None => true
              case Some(v) => (v in db.vms && (!db.vms[v].privacy || db.vms[v].owner == Some(u))) || exists path :: LivePath(db, u, v, path)
  {
    forall e { KeptMembers(entries, x => MayRead(db, u, x), e); }
    forall e: Entry | e.vm.Some? { AccessOrOwnsMeans(db, u, e.vm.value); }
    hide HasAccessOrOwns;
    var keep := e => MayRead(db, u, e);
    var flagCache: map<VmId, bool> := map[];
    out := [];
    for i := 0 to |entries|
      invariant out == Kept(entries[..i], keep)
      invariant forall v :: v in flagCache ==> (flagCache[v] <==> v !in db.vms || db.vms[v].privacy)
    {
      KeptStep(entries, i, keep);
      var entry := entries[i];
      if entry.vm.Some? {
        var v := entry.vm.value;
        if v !in flagCache { flagCache := flagCache[v := v !in db.vms || db.vms[v].privacy]; }
        if flagCache[v] && !HasAccessOrOwns(db, u, v) { continue; }
      }
      out := out + [entry];
    }
    assert entries[..|entries|] == entries;
  }

  /** The rows a page asks for. */
  function Page(log: seq<Entry>, offset: nat, limit: nat): seq<Entry> {
    if offset >= |log| then [] else if offset + limit <= |log| then log[offset..offset + limit] else log[offset..]
  }

  /** List and export agree on every entry both of them fetch. */
  lemma ListAndExportAgree(db: Db, u: UserId, log: seq<Entry>, offset1: nat, limit1: nat, offset2: nat, limit2: nat, e: Entry)
    requires e in Page(log, offset1, limit1) && e in Page(log, offset2, limit2)
    ensures var keep := x => MayRead(db, u, x);
            e in Kept(Page(log, offset1, limit1), keep) <==> e in Kept(Page(log, offset2, limit2), keep)
  {
    KeptMembers(Page(log, offset1, limit1), x => MayRead(db, u, x), e);
    KeptMembers(Page(log, offset2, limit2), x => MayRead(db, u, x), e);
  }

  /** What gets through is readable by ownership or a live path; deleted VMs are not owned by anyone. */
  lemma DeletedVmNeedsAGrant(db: Db, u: UserId, e: Entry, entries: seq<Entry>)
    requires e.vm.Some? && e.vm.value !in db.vms && e in entries
    ensures e in Kept(entries, x => MayRead(db, u, x)) <==> exists path :: LivePath(db, u, e.vm.value, path)
  {
    KeptMembers(entries, x => MayRead(db, u, x), e);
    AccessIsAPath(db, u, e.vm.value);
  }

  // -- The job list ---------------------------------------------------------------------

  datatype Job = Job(id: int, createdBy: Option<UserId>, vm: Option<VmId>, status: string)

  predicate PrivateToOthers(db: Db, user: User, v: VmId) {
    v in db.vms && db.vms[v].privacy && !HasAccessOrOwns(db, user.id, v)
  }

  /** `assertJobAccess`: creator or privileged first, then the privacy flag. */
  method JobGate(db: Db, user: User, job: Job) returns (accepted: bool)
    ensures accepted <==> JobAccess(db, user, job)
    ensures accepted <==>
              && (ADMIN in user.roles || OPERATOR in user.roles || job.createdBy == Some(user.id))
              && match job.vm
                 case None => true
                 case Some(v) =>
                   v !in db.vms || !db.vms[v].privacy || db.vms[v].owner == Some(user.id) || exists path :: LivePath(db, user.id, v, path)
  {
    if job.vm.Some? { AccessOrOwnsMeans(db, user.id, job.vm.value); }
    hide HasAccessOrOwns;
    if !Privileged(user) && job.createdBy != Some(user.id) { return false; }
    if job.vm.Some? && PrivateToOthers(db, user, job.vm.value) { return false; }
    return true;
  }

  predicate JobAccess(db: Db, user: User, job: Job) {
    (Privileged(user) || job.createdBy == Some(user.id)) && (job.vm.Some? ==> !PrivateToOthers(db, user, job.vm.value))
  }

  /** `jobs.list` without paging: the query narrows by status, and by creator when the caller names one. */
  function Fetched(jobs: seq<Job>, status: Option<string>, createdBy: Option<UserId>): seq<Job> {
    Kept(jobs, (j: Job) => (status.None? || j.status == status.value) && (createdBy.None? || j.createdBy == createdBy))
  }

  lemma ListedMeans(db: Db, user: User, jobs: seq<Job>, status: Option<string>, j: Job)
    ensures j in Kept(jobs, (x: Job) => (status.None? || x.status == status.value) && JobAccess(db, user, x)) <==>
              && j in jobs && (status.None? || j.status == status.value)
              && (ADMIN in user.roles || OPERATOR in user.roles || j.createdBy == Some(user.id))
              && match j.vm
                 case None => true
                 case Some(v) =>
                   v !in db.vms || !db.vms[v].privacy || db.vms[v].owner == Some(user.id) || exists path :: LivePath(db, user.id, v, path)
  {
    KeptMembers(jobs, (x: Job) => (status.None? || x.status == status.value) && JobAccess(db, user, x), j);
    if j.vm.Some? { AccessOrOwnsMeans(db, user.id, j.vm.value); }
    hide HasAccessOrOwns;
  }

  method ListJobs(db: Db, user: User, jobs: seq<Job>, status: Option<string>) returns (visible: seq<Job>)
    ensures visible == Kept(jobs, (j: Job) => (status.None? || j.status == status.value) && JobAccess(db, user, j))
    ensures forall j :: j in visible <==>
              && j in jobs && (status.None? || j.status == status.value)
              && (ADMIN in user.roles || OPERATOR in user.roles || j.createdBy == Some(user.id))
              && match j.vm
                 case None => true
                 case Some(v) =>
                   v !in db.vms || !db.vms[v].privacy || db.vms[v].owner == Some(user.id) || exists path :: LivePath(db, user.id, v, path)
  {
    hide HasAccessOrOwns;
    var mine := if Privileged(user) then None else Some(user.id);
    var rows := Fetched(jobs, status, mine);
    var keep := (j: Job) => j.vm.Some? ==> !PrivateToOthers(db, user, j.vm.value);
    visible := [];
    for i := 0 to |rows|
      invariant visible == Kept(rows[..i], keep)
    {
      KeptStep(rows, i, keep);
      if rows[i].vm.None? {
        visible := visible + [rows[i]];
        continue;
      }
      if PrivateToOthers(db, user, rows[i].vm.value) { continue; }
      visible := visible + [rows[i]];
    }
    assert rows[..|rows|] == rows;
    forall j { ListedMeans(db, user, jobs, status, j); }
    hide JobAccess, PrivateToOthers, Privileged;
    KeptTwice(jobs, (j: Job) => (status.None? || j.status == status.value) && (mine.None? || j.createdBy == mine), keep,
              (j: Job) => (status.None? || j.status == status.value) && JobAccess(db, user, j));
  }

  lemma {:induction false} KeptTwice<T>(s: seq<T>, first: T -> bool, second: T -> bool, both: T -> bool)
    requires forall x :: both(x) <==> first(x) && second(x)
    ensures Kept(Kept(s, first), second) == Kept(s, both)
    decreases |s|
  {
    if s != [] {
      var front, last := s[..|s| - 1], s[|s| - 1];
      KeptTwice(front, first, second, both);
      if first(last) { assert (Kept(front, first) + [last])[..|Kept(front, first)|] == Kept(front, first); }
    }
  }

  /** A job is listed, under its own status or none, exactly when the gate accepts it. */
  lemma ListMatchesGate(db: Db, user: User, jobs: seq<Job>, status: Option<string>, job: Job)
    requires job in jobs && (status.None? || job.status == status.value)
    ensures job in Kept(jobs, (j: Job) => (status.None? || j.status == status.value) && JobAccess(db, user, j))
            <==> JobAccess(db, user, job)
  {
    KeptMembers(jobs, (j: Job) => (status.None? || j.status == status.value) && JobAccess(db, user, j), job);
  }
}
