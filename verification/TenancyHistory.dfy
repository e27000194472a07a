/**
 What the tenancy tables hold in terms of what was asked of them: anyone's role and default
 organization, read off the log of the calls that took effect, without looking at a table.
 */
module TenancyHistory {
  import opened TenancyModel
  import opened Wrappers

  /** A call that took effect, with the reply it had whether or not the caller heard it. */
  datatype Entry = Entry(op: Op, reply: Reply)

  function Log(calls: seq<(Op, Fate)>): seq<Entry> {
    if calls == [] then []
    else
      var n := |calls| - 1;
      var served := Serve(After(EMPTY, calls[..n]), calls[n].0);
      if calls[n].1.RolledBack? || served.reply.Refused? then Log(calls[..n])
      else Log(calls[..n]) + [Entry(calls[n].0, served.reply)]
  }

  function Replay(log: seq<Entry>): Db {
    if log == [] then EMPTY else Serve(Replay(log[..|log| - 1]), log[|log| - 1].op).db
  }

  /** The entry is of a call these tables serve with that reply. */
  predicate Next(db: Db, e: Entry) { e.reply == Serve(db, e.op).reply && !e.reply.Refused? }

  /** Each entry has the reply its call gets from the tables the entries before it leave, and none is a refusal. */
  predicate Honest(log: seq<Entry>) {
    log == [] || (
      var n := |log| - 1;
      Honest(log[..n]) && Next(Replay(log[..n]), log[n]))
  }

  lemma UserRefusals(db: Db, op: UserOp)
    ensures ServeUser(db, op).reply.Refused? ==> ServeUser(db, op).db == db
  {}

  lemma OrgRefusals(db: Db, op: OrgOp)
    ensures ServeOrg(db, op).reply.Refused? ==> ServeOrg(db, op).db == db
  {}

  lemma ProjectRefusals(db: Db, op: ProjectOp)
    ensures ServeProject(db, op).reply.Refused? ==> ServeProject(db, op).db == db
  {}

  lemma InviteRefusals(db: Db, op: InviteOp)
    ensures ServeInvite(db, op).reply.Refused? ==> ServeInvite(db, op).db == db
  {}

  lemma RefusalsChangeNothing(db: Db, op: Op)
    ensures Serve(db, op).reply.Refused? ==> Serve(db, op).db == db
  {
    match op {
      case Users(o) => UserRefusals(db, o);
      case Orgs(o) => OrgRefusals(db, o);
      case Projects(o) => ProjectRefusals(db, o);
      case Invites(o) => InviteRefusals(db, o);
    }
  }

  /** Calls that were refused or rolled back leave no trace, and those with a lost reply all of theirs:
      the tables are what the calls in the log make of empty ones. */
  lemma {:induction false} LogIsTheRun(calls: seq<(Op, Fate)>)
    ensures Honest(Log(calls))
    ensures Replay(Log(calls)) == After(EMPTY, calls)
  {
    if calls != [] {
      var n := |calls| - 1;
      LogIsTheRun(calls[..n]);
      var served := Serve(After(EMPTY, calls[..n]), calls[n].0);
      RefusalsChangeNothing(After(EMPTY, calls[..n]), calls[n].0);
      if !calls[n].1.RolledBack? && !served.reply.Refused? {
        assert Log(calls)[..|Log(calls)| - 1] == Log(calls[..n]);
      }
    }
  }

  lemma {:induction false} ReplayKeeps(log: seq<Entry>)
    ensures WellFormed(Replay(log))
  {
    if log != [] {
      ReplayKeeps(log[..|log| - 1]);
      ServeKeeps(Replay(log[..|log| - 1]), log[|log| - 1].op);
    }
  }

  // ---------- Which call made a row ----------

  /** The call whose reply gave out an id.  An upsert of a known user gives out an old one, so users are left aside. */
  function Maker(log: seq<Entry>, id: Id): Option<Op> {
    if log == [] then None
    else
      var e := log[|log| - 1];
      if e.reply == Made(id) && !e.op.Users? then Some(e.op) else Maker(log[..|log| - 1], id)
  }

  predicate MadeForOrg(log: seq<Entry>, invite: Id, org: Id, role: string) {
    match Maker(log, invite)
    case Some(Invites(CreateOrgInvitation(o, _, _, r, _))) => o == org && r == role
    case _ => false
  }

  predicate MadeForProject(log: seq<Entry>, invite: Id, project: Id, role: string) {
    match Maker(log, invite)
    case Some(Invites(CreateProjectInvitation(p, _, _, _, r, _))) => p == project && r == role
    case _ => false
  }

  predicate MadeIn(log: seq<Entry>, project: Id, org: Id) {
    match Maker(log, project)
    case Some(Projects(CreateProject(o, _, _, _, _))) => o == org
    case _ => false
  }

  predicate InvitesMade(log: seq<Entry>, invites: map<Id, OrgInvite>) {
    forall i | i in invites :: MadeForOrg(log, i, invites[i].org, invites[i].role)
  }

  predicate ProjectInvitesMade(log: seq<Entry>, invites: map<Id, ProjectInvite>) {
    forall i | i in invites :: MadeForProject(log, i, invites[i].project, invites[i].role)
  }

  predicate ProjectsMade(log: seq<Entry>, projects: map<Id, Project>) {
    forall p | p in projects :: MadeIn(log, p, projects[p].org)
  }

  predicate RowsMade(log: seq<Entry>, db: Db) {
    InvitesMade(log, db.orgInvites) && ProjectInvitesMade(log, db.projectInvites) && ProjectsMade(log, db.projects)
  }

  lemma OldMakers(log: seq<Entry>, e: Entry, next: Id)
    requires e.op.Users? || e.reply == Done || e.reply == Made(next)
    ensures forall id: Id | id < next :: Maker(log + [e], id) == Maker(log, id)
  {
    assert (log + [e])[..|log|] == log;
  }

  lemma RowsKeepMakers(log: seq<Entry>, e: Entry, db: Db)
    requires RowsMade(log, db) && FreshIds(db)
    requires e.op.Users? || e.reply == Done || e.reply == Made(db.nextId)
    ensures RowsMade(log + [e], db)
  {
    OldMakers(log, e, db.nextId);
  }

  lemma OrgsMakeNoRows(log: seq<Entry>, db: Db, op: OrgOp)
    requires RowsMade(log, db)
    ensures RowsMade(log, ServeOrg(db, op).db)
  {}

  lemma ProjectsMakeRows(log: seq<Entry>, db: Db, op: ProjectOp)
    requires RowsMade(log, db)
    requires op.CreateProject? ==> Maker(log, db.nextId) == Some(Projects(op))
    ensures RowsMade(log, ServeProject(db, op).db)
  {}

  lemma InvitesMakeRows(log: seq<Entry>, db: Db, op: InviteOp)
    requires RowsMade(log, db)
    requires op.CreateOrgInvitation? || op.CreateProjectInvitation? ==> Maker(log, db.nextId) == Some(Invites(op))
    ensures RowsMade(log, ServeInvite(db, op).db)
  {}

  lemma NextGivesOutNewIds(db: Db, e: Entry)
    requires Next(db, e)
    ensures e.op.Users? || e.reply == Done || e.reply == Made(db.nextId)
  {}

  lemma UsersMakeNoRows(log: seq<Entry>, db: Db, op: UserOp)
    requires RowsMade(log, db)
    ensures RowsMade(log, ServeUser(db, op).db)
  {}

  lemma NextMakesRows(before: seq<Entry>, db: Db, e: Entry)
    requires FreshIds(db) && RowsMade(before, db) && Next(db, e)
    ensures RowsMade(before + [e], Serve(db, e.op).db)
  {
    NextGivesOutNewIds(db, e);
    RowsKeepMakers(before, e, db);
    match e.op {
      case Users(o) => UsersMakeNoRows(before + [e], db, o);
      case Orgs(o) => OrgsMakeNoRows(before + [e], db, o);
      case Projects(o) => ProjectsMakeRows(before + [e], db, o);
      case Invites(o) => InvitesMakeRows(before + [e], db, o);
    }
  }

  /** Whatever row is there, the call that gave out its id says where it belongs and which role it offers. */
  lemma {:induction false} RowsHaveMakers(log: seq<Entry>)
    requires Honest(log)
    ensures RowsMade(log, Replay(log))
  {
    if log != [] {
      var before, e := log[..|log| - 1], log[|log| - 1];
      RowsHaveMakers(before);
      ReplayKeeps(before);
      NextMakesRows(before, Replay(before), e);
    }
  }

  // ---------- Roles in organizations ----------

  function RoleInOrg(members: map<OrgMember, Membership>, org: Id, user: Id): Option<string> {
    if OrgMember(user, org) in members then Some(members[OrgMember(user, org)].role) else None
  }

  /** What a call makes of someone's role in an organization, given the calls before it. */
  function NextOrgRole(before: seq<Entry>, e: Entry, org: Id, user: Id, was: Option<string>): Option<string> {
    match e.op
    case Orgs(CreateOrganization(_, _, owner)) => if e.reply == Made(org) && owner == user then Some("owner") else was
    case Orgs(DeleteOrganization(gone)) => if gone == org then None else was
    case Orgs(AddOrgMember(o, u, role)) => if o == org && u == user then Some(role) else was
    case Orgs(RemoveOrgMember(o, u)) => if o == org && u == user then None else was
    case Orgs(UpdateOrgMemberRole(o, u, role)) => if o == org && u == user then Some(role) else was
    case Invites(AcceptOrgInvitation(invite, u, _)) =>
      (match Maker(before, invite)
       case Some(Invites(CreateOrgInvitation(o, _, _, role, _))) => if o == org && u == user then Some(role) else was
       case _ => was)
    case _ => was
  }

  /** The role of a user in an organization, as the last call in the log that concerned it left it. */
  function OrgRole(log: seq<Entry>, org: Id, user: Id): Option<string> {
    if log == [] then None
    else
      var before, e := log[..|log| - 1], log[|log| - 1];
      NextOrgRole(before, e, org, user, OrgRole(before, org, user))
  }

  lemma UsersKeepOrgMembers(db: Db, op: UserOp)
    ensures ServeUser(db, op).db.orgMembers == db.orgMembers
  {}

  lemma ProjectsKeepOrgMembers(db: Db, op: ProjectOp)
    ensures ServeProject(db, op).db.orgMembers == db.orgMembers
  {}

  lemma OrgsSetOrgRoles(before: seq<Entry>, db: Db, op: OrgOp, e: Entry, org: Id, user: Id)
    requires WellFormed(db) && e == Entry(Orgs(op), ServeOrg(db, op).reply) && !e.reply.Refused?
    ensures RoleInOrg(ServeOrg(db, op).db.orgMembers, org, user)
         == NextOrgRole(before, e, org, user, RoleInOrg(db.orgMembers, org, user))
  {}

  lemma InvitesSetOrgRoles(before: seq<Entry>, db: Db, op: InviteOp, e: Entry, org: Id, user: Id)
    requires InvitesMade(before, db.orgInvites)
    requires e == Entry(Invites(op), ServeInvite(db, op).reply) && !e.reply.Refused?
    ensures RoleInOrg(ServeInvite(db, op).db.orgMembers, org, user)
         == NextOrgRole(before, e, org, user, RoleInOrg(db.orgMembers, org, user))
  {
    if op.AcceptOrgInvitation? {
      assert MadeForOrg(before, op.invite, db.orgInvites[op.invite].org, db.orgInvites[op.invite].role);
    }
  }

  lemma NextSetsOrgRoles(before: seq<Entry>, db: Db, e: Entry, org: Id, user: Id)
    requires WellFormed(db) && InvitesMade(before, db.orgInvites) && Next(db, e)
    ensures RoleInOrg(Serve(db, e.op).db.orgMembers, org, user)
         == NextOrgRole(before, e, org, user, RoleInOrg(db.orgMembers, org, user))
  {
    match e.op {
      case Orgs(o) => OrgsSetOrgRoles(before, db, o, e, org, user);
      case Invites(o) => InvitesSetOrgRoles(before, db, o, e, org, user);
      case Users(o) => UsersKeepOrgMembers(db, o);
      case Projects(o) => ProjectsKeepOrgMembers(db, o);
    }
  }

  lemma {:induction false} LogSetsOrgRoles(log: seq<Entry>, org: Id, user: Id)
    requires Honest(log)
    ensures RoleInOrg(Replay(log).orgMembers, org, user) == OrgRole(log, org, user)
  {
    if log != [] {
      var before, e := log[..|log| - 1], log[|log| - 1];
      LogSetsOrgRoles(before, org, user);
      ReplayKeeps(before);
      RowsHaveMakers(before);
      NextSetsOrgRoles(before, Replay(before), e, org, user);
    }
  }

  /** After any calls, failed ones included, anyone's role in any organization is what the calls that
      took effect say, the invitation accepted being the one its own creation described. */
  lemma OrgRolesFollowLog(calls: seq<(Op, Fate)>, org: Id, user: Id)
    ensures RoleInOrg(After(EMPTY, calls).orgMembers, org, user) == OrgRole(Log(calls), org, user)
  {
    LogIsTheRun(calls);
    LogSetsOrgRoles(Log(calls), org, user);
  }

  // ---------- Roles in projects ----------

  function RoleInProject(members: map<ProjectMember, string>, project: Id, user: Id): Option<string> {
    if ProjectMember(project, user) in members then Some(members[ProjectMember(project, user)]) else None
  }

  /** What a call makes of someone's role in a project, given the calls before it. */
  function NextProjectRole(before: seq<Entry>, e: Entry, project: Id, user: Id, was: Option<string>): Option<string> {
    match e.op
    case Projects(CreateProject(_, _, _, _, creator)) =>
      if e.reply == Made(project) && creator == user then Some("maintainer") else was
    case Projects(DeleteProject(gone)) => if gone == project then None else was
    case Projects(AddProjectMember(p, u, role)) => if p == project && u == user then Some(role) else was
    case Projects(RemoveProjectMember(p, u)) => if p == project && u == user then None else was
    case Projects(UpdateProjectMemberRole(p, u, role)) => if p == project && u == user then Some(role) else was
    case Orgs(DeleteOrganization(gone)) => if MadeIn(before, project, gone) then None else was
    case Invites(AcceptProjectInvitation(invite, u, _)) =>
      (match Maker(before, invite)
       case Some(Invites(CreateProjectInvitation(p, _, _, _, role, _))) =>
         if p == project && u == user then Some(role) else was
       case _ => was)
    case _ => was
  }

  function ProjectRole(log: seq<Entry>, project: Id, user: Id): Option<string> {
    if log == [] then None
    else
      var before, e := log[..|log| - 1], log[|log| - 1];
      NextProjectRole(before, e, project, user, ProjectRole(before, project, user))
  }

  lemma OrgsEndProjectRoles(before: seq<Entry>, db: Db, op: OrgOp, e: Entry, project: Id, user: Id)
    requires WellFormed(db) && ProjectsMade(before, db.projects)
    requires e == Entry(Orgs(op), ServeOrg(db, op).reply) && !e.reply.Refused?
    ensures RoleInProject(ServeOrg(db, op).db.projectMembers, project, user)
         == NextProjectRole(before, e, project, user, RoleInProject(db.projectMembers, project, user))
  {
    if op.DeleteOrganization? && project in db.projects {
      assert MadeIn(before, project, db.projects[project].org);
    }
  }

  lemma ProjectsSetRoles(before: seq<Entry>, db: Db, op: ProjectOp, e: Entry, project: Id, user: Id)
    requires WellFormed(db) && e == Entry(Projects(op), ServeProject(db, op).reply) && !e.reply.Refused?
    ensures RoleInProject(ServeProject(db, op).db.projectMembers, project, user)
         == NextProjectRole(before, e, project, user, RoleInProject(db.projectMembers, project, user))
  {}

  lemma InvitesSetProjectRoles(before: seq<Entry>, db: Db, op: InviteOp, e: Entry, project: Id, user: Id)
    requires ProjectInvitesMade(before, db.projectInvites)
    requires e == Entry(Invites(op), ServeInvite(db, op).reply) && !e.reply.Refused?
    ensures RoleInProject(ServeInvite(db, op).db.projectMembers, project, user)
         == NextProjectRole(before, e, project, user, RoleInProject(db.projectMembers, project, user))
  {
    if op.AcceptProjectInvitation? {
      var i := db.projectInvites[op.invite];
      assert MadeForProject(before, op.invite, i.project, i.role);
    }
  }

  lemma NextSetsProjectRoles(before: seq<Entry>, db: Db, e: Entry, project: Id, user: Id)
    requires ProjectInvitesMade(before, db.projectInvites) && ProjectsMade(before, db.projects)
    requires WellFormed(db) && Next(db, e)
    ensures RoleInProject(Serve(db, e.op).db.projectMembers, project, user)
         == NextProjectRole(before, e, project, user, RoleInProject(db.projectMembers, project, user))
  {
    match e.op {
      case Users(o) =>
      case Orgs(o) => OrgsEndProjectRoles(before, db, o, e, project, user);
      case Projects(o) => ProjectsSetRoles(before, db, o, e, project, user);
      case Invites(o) => InvitesSetProjectRoles(before, db, o, e, project, user);
    }
  }

  lemma {:induction false} LogSetsProjectRoles(log: seq<Entry>, project: Id, user: Id)
    requires Honest(log)
    ensures RoleInProject(Replay(log).projectMembers, project, user) == ProjectRole(log, project, user)
  {
    if log != [] {
      var before, e := log[..|log| - 1], log[|log| - 1];
      LogSetsProjectRoles(before, project, user);
      ReplayKeeps(before);
      RowsHaveMakers(before);
      NextSetsProjectRoles(before, Replay(before), e, project, user);
    }
  }

  /** The same for projects, where deleting the organization a project was made in ends its roles too. */
  lemma ProjectRolesFollowLog(calls: seq<(Op, Fate)>, project: Id, user: Id)
    ensures RoleInProject(After(EMPTY, calls).projectMembers, project, user) == ProjectRole(Log(calls), project, user)
  {
    LogIsTheRun(calls);
    LogSetsProjectRoles(Log(calls), project, user);
  }

  // ---------- Default organizations ----------

  /** What a call makes of a user's default. */
  function NextDefault(e: Entry, user: Id, was: Option<Id>): Option<Id> {
    match e.op
    case Orgs(CreateOrganization(_, _, owner)) =>
      if owner == user && was == None && e.reply.Made? then Some(e.reply.id) else was
    case Orgs(SetDefaultOrg(u, org)) => if u == user then Some(org) else was
    case Orgs(RemoveOrgMember(org, u)) => if u == user && was == Some(org) then None else was
    case Orgs(DeleteOrganization(org)) => if was == Some(org) then None else was
    case _ => was
  }

  /** A user's default: an organization they created while they had none, or the one they chose since. */
  function DefaultOrg(log: seq<Entry>, user: Id): Option<Id> {
    if log == [] then None
    else NextDefault(log[|log| - 1], user, DefaultOrg(log[..|log| - 1], user))
  }

  /** The given organization is the user's one default, or there is none. */
  predicate Defaults(members: map<OrgMember, Membership>, user: Id, default: Option<Id>) {
    && (forall k | k in members && k.user == user :: members[k].isDefault ==> default == Some(k.org))
    && (default.Some? ==>
          OrgMember(user, default.value) in members && members[OrgMember(user, default.value)].isDefault)
  }

  predicate OrgsBelow(members: map<OrgMember, Membership>, next: Id) { forall k | k in members :: k.org < next }

  lemma ReplayKeepsOrgsBelow(log: seq<Entry>)
    ensures OrgsBelow(Replay(log).orgMembers, Replay(log).nextId)
  {
    ReplayKeeps(log);
  }

  lemma OrgsSetDefaults(db: Db, op: OrgOp, e: Entry, user: Id, was: Option<Id>)
    requires OrgsBelow(db.orgMembers, db.nextId) && Defaults(db.orgMembers, user, was)
    requires e == Entry(Orgs(op), ServeOrg(db, op).reply) && !e.reply.Refused?
    ensures Defaults(ServeOrg(db, op).db.orgMembers, user, NextDefault(e, user, was))
  {}

  lemma InvitesLeaveDefaults(db: Db, op: InviteOp, user: Id, default: Option<Id>)
    requires Defaults(db.orgMembers, user, default)
    ensures Defaults(ServeInvite(db, op).db.orgMembers, user, default)
  {}

  lemma NextSetsDefaults(db: Db, e: Entry, user: Id, was: Option<Id>)
    requires OrgsBelow(db.orgMembers, db.nextId) && Defaults(db.orgMembers, user, was) && Next(db, e)
    ensures Defaults(Serve(db, e.op).db.orgMembers, user, NextDefault(e, user, was))
  {
    match e.op {
      case Orgs(o) => OrgsSetDefaults(db, o, e, user, was);
      case Invites(o) => InvitesLeaveDefaults(db, o, user, was);
      case Users(o) => UsersKeepOrgMembers(db, o);
      case Projects(o) => ProjectsKeepOrgMembers(db, o);
    }
  }

  lemma {:induction false} LogSetsDefaults(log: seq<Entry>, user: Id)
    requires Honest(log)
    ensures Defaults(Replay(log).orgMembers, user, DefaultOrg(log, user))
  {
    if log != [] {
      var before, e := log[..|log| - 1], log[|log| - 1];
      LogSetsDefaults(before, user);
      ReplayKeepsOrgsBelow(before);
      NextSetsDefaults(Replay(before), e, user, DefaultOrg(before, user));
    }
  }

  /** After any calls a user's default is the organization the log names: being added, re-roled or
      invited never gives or takes one, and losing the default's membership leaves none. */
  lemma DefaultsFollowLog(calls: seq<(Op, Fate)>, user: Id)
    ensures Defaults(After(EMPTY, calls).orgMembers, user, DefaultOrg(Log(calls), user))
  {
    LogIsTheRun(calls);
    LogSetsDefaults(Log(calls), user);
  }
}
