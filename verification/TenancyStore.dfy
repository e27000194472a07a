/**
 The store's methods over the tenancy tables.  A transaction works on its own copy of the
 tables and becomes visible in one commit; any statement, and the commit itself, may fail.
 Each method is proved to be one call of the model, so everything proved of calls holds.
 */
module TenancyStore {
  import opened Wrappers
  import opened TenancyModel

  /** The call was served, or it failed with or without having taken effect. */
  predicate Did(db: Db, op: Op, after: Db, reply: Reply) {
    var served := Serve(db, op);
    Result(after, reply) == served || (reply == Refused(DbError) && (after == db || after == served.db))
  }

  lemma DidIsCall(db: Db, op: Op, after: Db, reply: Reply)
    ensures Did(db, op, after, reply) <==> exists fate :: Call(db, op, fate) == Result(after, reply)
  {
    if Did(db, op, after, reply) {
      var fate :=
        if Result(after, reply) == Serve(db, op) then Served else if after == db then RolledBack else ReplyLost;
      assert Call(db, op, fate) == Result(after, reply);
    }
  }

  /** So a call leaves the tables well formed whatever became of it. */
  lemma DidKeeps(db: Db, op: Op, after: Db, reply: Reply)
    requires WellFormed(db) && Did(db, op, after, reply)
    ensures WellFormed(after)
  {
    ServeKeeps(db, op);
  }

  // ---------- The cascade of an organization ----------

  /** The tables once the organization's projects outside `left` are gone with what hangs on them. */
  function Cascaded(db: Db, org: Id, left: set<Id>): Db {
    var projects := map p | p in db.projects && (db.projects[p].org != org || p in left) :: db.projects[p];
    db.(projects := projects,
        projectMembers := map k | k in db.projectMembers && !GoneWith(db, org, left, k.project) :: db.projectMembers[k],
        projectInvites :=
          map i | i in db.projectInvites && !GoneWith(db, org, left, db.projectInvites[i].project) ::
            db.projectInvites[i])
  }

  predicate GoneWith(db: Db, org: Id, left: set<Id>, project: Id) {
    project in db.projects && db.projects[project].org == org && project !in left
  }

  lemma OneMore(db: Db, org: Id, left: set<Id>, p: Id)
    requires p in left && p in db.projects && db.projects[p].org == org
    ensures WithoutProject(Cascaded(db, org, left), p) == Cascaded(db, org, left - {p})
  {
    var one, other := WithoutProject(Cascaded(db, org, left), p), Cascaded(db, org, left - {p});
    assert one.projects == other.projects;
    assert one.projectMembers == other.projectMembers;
    assert one.projectInvites == other.projectInvites;
  }

  lemma CascadeIsClosed(db: Db, org: Id)
    requires WellFormed(db)
    ensures var tx, closed := Cascaded(db, org, {}), WithoutOrg(db, org);
      && closed.projects == tx.projects && closed.projectMembers == tx.projectMembers
      && closed.projectInvites
         == map i | i in tx.projectInvites && tx.projectInvites[i].org != org :: tx.projectInvites[i]
  {
    var tx, closed := Cascaded(db, org, {}), WithoutOrg(db, org);
    assert closed.projects == tx.projects;
    assert closed.projectMembers == tx.projectMembers;
  }

  /** A project goes with its members and its invitations. */
  method CascadeProject(db: Db, project: Id) returns (tx: Db)
    ensures tx == WithoutProject(db, project)
  {
    var invites := map i | i in db.projectInvites && db.projectInvites[i].project != project :: db.projectInvites[i];
    var members := map k | k in db.projectMembers && k.project != project :: db.projectMembers[k];
    var projects := map p | p in db.projects && p != project :: db.projects[p];
    assert projects == db.projects - {project};
    tx := db.(projectInvites := invites, projectMembers := members, projects := projects);
  }

  function OwnProjects(db: Db, org: Id): set<Id> { set p | p in db.projects && db.projects[p].org == org }

  lemma NoneGone(db: Db, org: Id)
    ensures Cascaded(db, org, OwnProjects(db, org)) == db
  {
    var all := Cascaded(db, org, OwnProjects(db, org));
    assert all.projects == db.projects;
    assert all.projectMembers == db.projectMembers;
    assert all.projectInvites == db.projectInvites;
  }

  method CascadeProjects(db: Db, org: Id) returns (tx: Db)
    ensures tx == Cascaded(db, org, {})
  {
    tx := db;
    var ids := OwnProjects(db, org);
    NoneGone(db, org);
    while ids != {}
      invariant ids <= OwnProjects(db, org)
      invariant tx == Cascaded(db, org, ids)
    {
      var p :| p in ids;
      OneMore(db, org, ids, p);
      tx := CascadeProject(tx, p);
      ids := ids - {p};
    }
  }

  /** The cascade as the schema's keys give it: project by project, then what hangs on the organization itself. */
  method CascadeOrg(db: Db, org: Id) returns (tx: Db)
    requires WellFormed(db)
    ensures tx == WithoutOrg(db, org)
  {
    tx := CascadeProjects(db, org);
    CascadeIsClosed(db, org);
    var members := map k | k in tx.orgMembers && k.org != org :: tx.orgMembers[k];
    var orgInvites := map i | i in tx.orgInvites && tx.orgInvites[i].org != org :: tx.orgInvites[i];
    var projectInvites := map i | i in tx.projectInvites && tx.projectInvites[i].org != org :: tx.projectInvites[i];
    tx := tx.(orgMembers := members, orgInvites := orgInvites, projectInvites := projectInvites,
              orgs := tx.orgs - {org});
  }

  lemma SameSize<K, V>(m: map<K, V>, k: K)
    ensures |m - {k}| == |m| <==> k !in m
  {
    if k in m {
      assert (m - {k}).Keys == m.Keys - {k};
      assert |(m - {k}).Keys| == |m - {k}| && |m.Keys| == |m|;
    } else {
      assert m - {k} == m;
    }
  }

  class Store {
    var db: Db
    /** The fates of the statements to come; past the end all are served. */
    var fates: seq<Fate>

    constructor (fates: seq<Fate>)
      ensures db == EMPTY && this.fates == fates
    {
      db, this.fates := EMPTY, fates;
    }

    method Draw() returns (fate: Fate)
      modifies this`fates
    {
      if fates == [] { return Served; }
      fate, fates := fates[0], fates[1..];
    }

    /** A statement inside a transaction: a lost reply is as bad as a failure. */
    method Statement() returns (ok: bool)
      modifies this`fates
    {
      var fate := Draw();
      return fate.Served?;
    }

    method Commit(tx: Db, reply: Reply) returns (r: Reply)
      modifies this
      ensures (db == tx && r == reply) || (r == Refused(DbError) && (db == old(db) || db == tx))
    {
      var fate := Draw();
      if fate.Served? { db := tx; return reply; }
      if fate.ReplyLost? { db := tx; }
      return Refused(DbError);
    }

    // ---------- Users ----------

    method UpsertUser(subject: string, email: string, displayName: string, isAdmin: bool) returns (r: Reply)
      modifies this
      ensures Did(old(db), Users(TenancyModel.UpsertUser(subject, email, displayName, isAdmin)), db, r)
    {
      var tx, id := db, db.nextId;
      if subject in tx.subjects {
        id := tx.subjects[subject];
      } else {
        tx := tx.(subjects := tx.subjects[subject := id], nextId := id + 1);
      }
      tx := tx.(users := tx.users[id := User(email, displayName, isAdmin)]);
      r := Commit(tx, Made(id));
    }

    method SetUserAdmin(user: Id, isAdmin: bool) returns (r: Reply)
      modifies this
      ensures Did(old(db), Users(TenancyModel.SetUserAdmin(user, isAdmin)), db, r)
    {
      if user !in db.users {
        r := Commit(db, Refused(NotFound));
      } else {
        r := Commit(db.(users := db.users[user := db.users[user].(isAdmin := isAdmin)]), Done);
      }
    }

    // ---------- Organizations ----------

    method UpdateOrganization(org: Id, name: string, description: string) returns (r: Reply)
      modifies this
      ensures Did(old(db), Orgs(TenancyModel.UpdateOrganization(org, name, description)), db, r)
    {
      if org !in db.orgs {
        r := Commit(db, Refused(NotFound));
      } else {
        var row := db.orgs[org].(name := name, description := description);
        r := Commit(db.(orgs := db.orgs[org := row]), Done);
      }
    }

    method DeleteOrganization(org: Id) returns (r: Reply)
      requires WellFormed(db)
      modifies this
      ensures Did(old(db), Orgs(TenancyModel.DeleteOrganization(org)), db, r)
    {
      if org !in db.orgs {
        r := Commit(db, Refused(NotFound));
      } else {
        var tx := CascadeOrg(db, org);
        r := Commit(tx, Done);
      }
    }

    method AddOrgMember(org: Id, user: Id, role: string) returns (r: Reply)
      modifies this
      ensures Did(old(db), Orgs(TenancyModel.AddOrgMember(org, user, role)), db, r)
    {
      var k := OrgMember(user, org);
      if org !in db.orgs || user !in db.users {
        r := Commit(db, Refused(DbError));
      } else if k in db.orgMembers {
        r := Commit(db.(orgMembers := db.orgMembers[k := db.orgMembers[k].(role := role)]), Done);
      } else {
        r := Commit(db.(orgMembers := db.orgMembers[k := Membership(role, false)]), Done);
      }
    }

    method RemoveOrgMember(org: Id, user: Id) returns (r: Reply)
      modifies this
      ensures Did(old(db), Orgs(TenancyModel.RemoveOrgMember(org, user)), db, r)
    {
      var rows := map k | k in db.orgMembers && !(k.org == org && k.user == user) :: db.orgMembers[k];
      assert rows == db.orgMembers - {OrgMember(user, org)};
      if |rows| == |db.orgMembers| {
        SameSize(db.orgMembers, OrgMember(user, org));
        r := Commit(db, Refused(NotFound));
      } else {
        r := Commit(db.(orgMembers := rows), Done);
      }
    }

    method UpdateOrgMemberRole(org: Id, user: Id, role: string) returns (r: Reply)
      modifies this
      ensures Did(old(db), Orgs(TenancyModel.UpdateOrgMemberRole(org, user, role)), db, r)
    {
      var k := OrgMember(user, org);
      if k !in db.orgMembers {
        r := Commit(db, Refused(NotFound));
      } else {
        r := Commit(db.(orgMembers := db.orgMembers[k := db.orgMembers[k].(role := role)]), Done);
      }
    }

    // ---------- Projects ----------

    method UpdateProject(project: Id, name: string, description: string) returns (r: Reply)
      modifies this
      ensures Did(old(db), Projects(TenancyModel.UpdateProject(project, name, description)), db, r)
    {
      if project !in db.projects {
        r := Commit(db, Refused(NotFound));
        return;
      }
      var row := db.projects[project];
      if NameTaken(db, row.org, name, Some(project)) {
        r := Commit(db, Refused(Conflict));
      } else {
        r := Commit(db.(projects := db.projects[project := row.(name := name, description := description)]), Done);
      }
    }

    method UpdateProjectQuotas(project: Id, quotas: Quotas) returns (r: Reply)
      modifies this
      ensures Did(old(db), Projects(TenancyModel.UpdateProjectQuotas(project, quotas)), db, r)
    {
      if project !in db.projects {
        r := Commit(db, Refused(NotFound));
      } else {
        r := Commit(db.(projects := db.projects[project := db.projects[project].(quotas := quotas)]), Done);
      }
    }

    method DeleteProject(project: Id) returns (r: Reply)
      modifies this
      ensures Did(old(db), Projects(TenancyModel.DeleteProject(project)), db, r)
    {
      if project !in db.projects {
        r := Commit(db, Refused(NotFound));
        return;
      }
      var tx := CascadeProject(db, project);
      r := Commit(tx, Done);
    }

    method AddProjectMember(project: Id, user: Id, role: string) returns (r: Reply)
      modifies this
      ensures Did(old(db), Projects(TenancyModel.AddProjectMember(project, user, role)), db, r)
    {
      if project !in db.projects || user !in db.users {
        r := Commit(db, Refused(DbError));
      } else {
        r := Commit(db.(projectMembers := db.projectMembers[ProjectMember(project, user) := role]), Done);
      }
    }

    method RemoveProjectMember(project: Id, user: Id) returns (r: Reply)
      modifies this
      ensures Did(old(db), Projects(TenancyModel.RemoveProjectMember(project, user)), db, r)
    {
      if ProjectMember(project, user) !in db.projectMembers {
        r := Commit(db, Refused(NotFound));
      } else {
        var rows := map k | k in db.projectMembers && !(k.project == project && k.user == user) :: db.projectMembers[k];
        assert rows == db.projectMembers - {ProjectMember(project, user)};
        r := Commit(db.(projectMembers := rows), Done);
      }
    }

    method UpdateProjectMemberRole(project: Id, user: Id, role: string) returns (r: Reply)
      modifies this
      ensures Did(old(db), Projects(TenancyModel.UpdateProjectMemberRole(project, user, role)), db, r)
    {
      if ProjectMember(project, user) !in db.projectMembers {
        r := Commit(db, Refused(NotFound));
      } else {
        r := Commit(db.(projectMembers := db.projectMembers[ProjectMember(project, user) := role]), Done);
      }
    }

    // ---------- Invitations ----------

    method CreateOrgInvitation(org: Id, inviter: Id, email: string, role: string, expires: int) returns (r: Reply)
      modifies this
      ensures Did(old(db), Invites(TenancyModel.CreateOrgInvitation(org, inviter, email, role, expires)), db, r)
    {
      var id := db.nextId;
      if org !in db.orgs || inviter !in db.users {
        r := Commit(db, Refused(DbError));
      } else {
        var row := OrgInvite(org, inviter, email, role, Pending, expires);
        r := Commit(db.(orgInvites := db.orgInvites[id := row], nextId := id + 1), Made(id));
      }
    }

    method CreateProjectInvitation(project: Id, org: Id, inviter: Id, email: string, role: string, expires: int)
      returns (r: Reply)
      modifies this
      ensures var op := TenancyModel.CreateProjectInvitation(project, org, inviter, email, role, expires);
              Did(old(db), Invites(op), db, r)
    {
      var id := db.nextId;
      if project !in db.projects || org !in db.orgs || inviter !in db.users {
        r := Commit(db, Refused(DbError));
      } else {
        var row := ProjectInvite(project, org, inviter, email, role, Pending, expires);
        r := Commit(db.(projectInvites := db.projectInvites[id := row], nextId := id + 1), Made(id));
      }
    }

    method SetOrgInvitationStatus(invite: Id, status: InviteStatus) returns (r: Reply)
      modifies this
      ensures Did(old(db), Invites(TenancyModel.SetOrgInvitationStatus(invite, status)), db, r)
    {
      if invite !in db.orgInvites {
        r := Commit(db, Refused(NotFound));
      } else {
        r := Commit(db.(orgInvites := db.orgInvites[invite := db.orgInvites[invite].(status := status)]), Done);
      }
    }

    method SetProjectInvitationStatus(invite: Id, status: InviteStatus) returns (r: Reply)
      modifies this
      ensures Did(old(db), Invites(TenancyModel.SetProjectInvitationStatus(invite, status)), db, r)
    {
      if invite !in db.projectInvites {
        r := Commit(db, Refused(NotFound));
      } else {
        var row := db.projectInvites[invite].(status := status);
        r := Commit(db.(projectInvites := db.projectInvites[invite := row]), Done);
      }
    }

    // ---------- Transactions ----------

    method CreateOrganization(name: string, description: string, owner: Id) returns (r: Reply)
      requires WellFormed(db)
      modifies this
      ensures Did(old(db), Orgs(TenancyModel.CreateOrganization(name, description, owner)), db, r)
    {
      var tx := db;
      var org := tx.nextId;
      var ok := Statement();
      if !ok { return Refused(DbError); }
      tx := tx.(orgs := tx.orgs[org := Org(name, description)], nextId := org + 1);
      ok := Statement();
      if !ok { return Refused(DbError); }
      var hasDefault := HasDefault(tx, owner);
      ok := Statement();
      if !ok || owner !in tx.users || OrgMember(owner, org) in tx.orgMembers { return Refused(DbError); }
      tx := tx.(orgMembers := tx.orgMembers[OrgMember(owner, org) := Membership("owner", !hasDefault)]);
      r := Commit(tx, Made(org));
    }

    method SetDefaultOrg(user: Id, org: Id) returns (r: Reply)
      modifies this
      ensures Did(old(db), Orgs(TenancyModel.SetDefaultOrg(user, org)), db, r)
    {
      var tx := db;
      var ok := Statement();
      if !ok { return Refused(DbError); }
      tx := tx.(orgMembers :=
        map k | k in tx.orgMembers ::
          if k.user == user then tx.orgMembers[k].(isDefault := false) else tx.orgMembers[k]);
      ok := Statement();
      if !ok { return Refused(DbError); }
      var k := OrgMember(user, org);
      if k !in tx.orgMembers { return Refused(NotFound); }
      tx := tx.(orgMembers := tx.orgMembers[k := tx.orgMembers[k].(isDefault := true)]);
      assert tx.orgMembers == DefaultMoved(db.orgMembers, user, org);
      r := Commit(tx, Done);
    }

    method CreateProject(org: Id, name: string, description: string, quotas: Quotas, creator: Id) returns (r: Reply)
      requires WellFormed(db)
      modifies this
      ensures Did(old(db), Projects(TenancyModel.CreateProject(org, name, description, quotas, creator)), db, r)
    {
      var tx := db;
      var project := tx.nextId;
      var ok := Statement();
      if !ok { return Refused(DbError); }
      if NameTaken(tx, org, name, None) { return Refused(Conflict); }
      if org !in tx.orgs { return Refused(DbError); }
      tx := tx.(projects := tx.projects[project := Project(org, name, description, quotas)], nextId := project + 1);
      ok := Statement();
      if !ok || creator !in tx.users || ProjectMember(project, creator) in tx.projectMembers {
        return Refused(DbError);
      }
      tx := tx.(projectMembers := tx.projectMembers[ProjectMember(project, creator) := "maintainer"]);
      r := Commit(tx, Made(project));
    }

    method AcceptOrgInvitation(invite: Id, user: Id, now: int) returns (r: Reply)
      modifies this
      ensures Did(old(db), Invites(TenancyModel.AcceptOrgInvitation(invite, user, now)), db, r)
    {
      var tx := db;
      var ok := Statement();
      if !ok { return Refused(DbError); }
      if invite !in tx.orgInvites { return Refused(NotFound); }
      var i := tx.orgInvites[invite];
      if i.status != Pending || now > i.expires { return Refused(NotAcceptable); }
      ok := Statement();
      if !ok || user !in tx.users || i.org !in tx.orgs { return Refused(DbError); }
      var k := OrgMember(user, i.org);
      if k in tx.orgMembers {
        tx := tx.(orgMembers := tx.orgMembers[k := tx.orgMembers[k].(role := i.role)]);
      } else {
        tx := tx.(orgMembers := tx.orgMembers[k := Membership(i.role, false)]);
      }
      ok := Statement();
      if !ok { return Refused(DbError); }
      tx := tx.(orgInvites := tx.orgInvites[invite := i.(status := Accepted)]);
      r := Commit(tx, Done);
    }

    method AcceptProjectInvitation(invite: Id, user: Id, now: int) returns (r: Reply)
      modifies this
      ensures Did(old(db), Invites(TenancyModel.AcceptProjectInvitation(invite, user, now)), db, r)
    {
      var tx := db;
      var ok := Statement();
      if !ok { return Refused(DbError); }
      if invite !in tx.projectInvites { return Refused(NotFound); }
      var i := tx.projectInvites[invite];
      if i.status != Pending || now > i.expires { return Refused(NotAcceptable); }
      ok := Statement();
      if !ok || user !in tx.users || i.project !in tx.projects { return Refused(DbError); }
      tx := tx.(projectMembers := tx.projectMembers[ProjectMember(i.project, user) := i.role]);
      ok := Statement();
      if !ok { return Refused(DbError); }
      tx := tx.(projectInvites := tx.projectInvites[invite := i.(status := Accepted)]);
      r := Commit(tx, Done);
    }

    /** Any one row with the flag is taken; there is never a second. */
    method GetDefaultOrg(user: Id) returns (r: Option<Id>)
      requires WellFormed(db)
      ensures match r case Some(org) => org in db.orgs && SoleDefault(db, user, org) case None => !HasDefault(db, user)
    {
      if k :| k in db.orgMembers && k.user == user && db.orgMembers[k].isDefault {
        assert k == OrgMember(user, k.org);
        return Some(k.org);
      }
      return None;
    }
  }
}
