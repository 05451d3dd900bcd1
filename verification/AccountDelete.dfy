/** Permanent account deletion: the blockers, and the transaction of `handleDeleteAccount`. */
module AccountDelete {
  import opened Common
  import opened Text

  type Id = string

  // ---------- Tables ----------

  datatype Team = Team(name: string, owner: Id, subscription: Option<string>, status: string)
  datatype TeamMember = TeamMember(team: Id, user: Id, role: string)
  datatype Invitation = Invitation(team: Id, invitedBy: Id, body: string)
  datatype Project = Project(team: Id, createdBy: Id, body: string)
  datatype PairingToken = PairingToken(project: Id, body: string)
  datatype Template = Template(source: Option<Id>, author: Id, body: string)
  datatype Contribution = Contribution(template: Id, contributor: Id, body: string)
  datatype Event = Event(actor: Option<Id>, body: string)

  /** Tables of the same shape are kept in one map, with the table's name in the row's key. */
  datatype Row<T> = Row(table: T, id: Id)

  datatype WorkTable = CanvasStates | CanvasSnapshots | CustomNodes | CloudCredentials | PairedAgents
  /** `author` is the NOT NULL updated_by or created_by column. */
  datatype Work = Work(project: Id, author: Id, body: string)

  datatype LinkTable = ProjectMembers | ProjectJoinRequests
  datatype Link = Link(project: Id, user: Id, body: string)

  datatype PersonalTable = OauthIdentities | PasswordResets | UserAvatars
  datatype Personal = Personal(user: Id, body: string)

  datatype Tables = Tables(
    users: set<Id>,
    teams: map<Id, Team>,
    teamMembers: map<Id, TeamMember>,
    invitations: map<Id, Invitation>,
    projects: map<Id, Project>,
    work: map<Row<WorkTable>, Work>,
    links: map<Row<LinkTable>, Link>,
    pairingTokens: map<Id, PairingToken>,
    templates: map<Id, Template>,
    contributions: map<Id, Contribution>,
    events: map<Id, Event>,
    personal: map<Row<PersonalTable>, Personal>)

  const WORK_TABLES: seq<WorkTable> := [CanvasStates, CanvasSnapshots, CustomNodes, CloudCredentials, PairedAgents]
  const LINK_TABLES: seq<LinkTable> := [ProjectMembers, ProjectJoinRequests]
  const PERSONAL_TABLES: seq<PersonalTable> := [OauthIdentities, PasswordResets, UserAvatars]

  // ---------- Statements ----------

  function WorkOutside(t: map<Row<WorkTable>, Work>, tables: set<WorkTable>, ps: set<Id>): map<Row<WorkTable>, Work> {
    map k | k in t && !(k.table in tables && t[k].project in ps) :: t[k]
  }

  function LinksOutside(t: map<Row<LinkTable>, Link>, tables: set<LinkTable>, ps: set<Id>): map<Row<LinkTable>, Link> {
    map k | k in t && !(k.table in tables && t[k].project in ps) :: t[k]
  }

  function TokensOutside(t: map<Id, PairingToken>, ps: set<Id>): map<Id, PairingToken> {
    map k | k in t && t[k].project !in ps :: t[k]
  }

  function Detach(source: Option<Id>, ps: set<Id>): Option<Id> {
    if source.Some? && source.value in ps then None else source
  }

  function TemplatesDetached(t: map<Id, Template>, ps: set<Id>): map<Id, Template> {
    map k | k in t :: t[k].(source := Detach(t[k].source, ps))
  }

  function ProjectsIn(projects: map<Id, Project>, ts: set<Id>): set<Id> {
    set p | p in projects && projects[p].team in ts
  }

  function MembersOutside(t: map<Id, TeamMember>, ts: set<Id>): map<Id, TeamMember> {
    map k | k in t && t[k].team !in ts :: t[k]
  }

  function InvitationsOutside(t: map<Id, Invitation>, ts: set<Id>): map<Id, Invitation> {
    map k | k in t && t[k].team !in ts :: t[k]
  }

  /** DELETE ... WHERE author = ? AND project_id NOT IN (SELECT id FROM projects). */
  function WithoutOrphans(t: map<Row<WorkTable>, Work>, tables: set<WorkTable>, user: Id,
                          projects: set<Id>): map<Row<WorkTable>, Work>
  {
    map k | k in t && !(k.table in tables && t[k].author == user && t[k].project !in projects) :: t[k]
  }

  /** (SELECT t.owner_id FROM teams t WHERE t.id = team): NULL when there is no such team. */
  function TeamOwner(teams: map<Id, Team>, team: Id): Option<Id> {
    if team in teams then Some(teams[team].owner) else None
  }

  /** The join projects p, teams t ON t.id = p.team_id, as a map from project to team owner: a
      project outside it makes the sub-select NULL. */
  function Owners(teams: map<Id, Team>, projects: map<Id, Project>): map<Id, Id> {
    map p | p in projects && projects[p].team in teams :: teams[projects[p].team].owner
  }

  function OrElse(o: Option<Id>, otherwise: Id): Id {
    if o.Some? then o.value else otherwise
  }

  /** The update writes NULL into no row: `author` is NOT NULL, so one NULL fails the statement. */
  predicate CanReassign(owners: map<Id, Id>, work: map<Row<WorkTable>, Work>, tables: set<WorkTable>, user: Id) {
    forall k | k in work && k.table in tables && work[k].author == user :: work[k].project in owners
  }

  predicate CanReassignAll(owners: map<Id, Id>, work: map<Row<WorkTable>, Work>, user: Id) {
    forall k | k in work && work[k].author == user :: work[k].project in owners
  }

  function Reauthored(owners: map<Id, Id>, w: Work, user: Id): Work {
    if w.author == user && w.project in owners then w.(author := owners[w.project]) else w
  }

  function WorkReassigned(owners: map<Id, Id>, work: map<Row<WorkTable>, Work>, tables: set<WorkTable>,
                          user: Id): map<Row<WorkTable>, Work>
  {
    map k | k in work :: if k.table in tables then Reauthored(owners, work[k], user) else work[k]
  }

  predicate CanReassignProjects(db: Tables, user: Id) {
    forall p | p in db.projects && db.projects[p].createdBy == user ::
      TeamOwner(db.teams, db.projects[p].team).Some?
  }

  function Recredited(teams: map<Id, Team>, p: Project, user: Id): Project {
    if p.createdBy == user then p.(createdBy := OrElse(TeamOwner(teams, p.team), user)) else p
  }

  function ProjectsReassigned(db: Tables, user: Id): map<Id, Project> {
    map p | p in db.projects :: Recredited(db.teams, db.projects[p], user)
  }

  function TemplatesNotBy(t: map<Id, Template>, user: Id): map<Id, Template> {
    map k | k in t && t[k].author != user :: t[k]
  }

  function ContributionsNotBy(t: map<Id, Contribution>, user: Id): map<Id, Contribution> {
    map k | k in t && t[k].contributor != user :: t[k]
  }

  function ContributionsNotTo(t: map<Id, Contribution>, templates: map<Id, Template>, user: Id): map<Id, Contribution> {
    map k | k in t && !(t[k].template in templates && templates[t[k].template].author == user) :: t[k]
  }

  function EventsCleared(t: map<Id, Event>, user: Id): map<Id, Event> {
    map k | k in t :: if t[k].actor == Some(user) then t[k].(actor := None) else t[k]
  }

  function LinksNotOf(t: map<Row<LinkTable>, Link>, tables: set<LinkTable>, user: Id): map<Row<LinkTable>, Link> {
    map k | k in t && !(k.table in tables && t[k].user == user) :: t[k]
  }

  function InvitationsNotBy(t: map<Id, Invitation>, user: Id): map<Id, Invitation> {
    map k | k in t && t[k].invitedBy != user :: t[k]
  }

  function MembersNotOf(t: map<Id, TeamMember>, user: Id): map<Id, TeamMember> {
    map k | k in t && t[k].user != user :: t[k]
  }

  function PersonalNotOf(t: map<Row<PersonalTable>, Personal>, tables: set<PersonalTable>,
                         user: Id): map<Row<PersonalTable>, Personal>
  {
    map k | k in t && !(k.table in tables && t[k].user == user) :: t[k]
  }

  // ---------- Steps of the transaction ----------

  function AllWork(): set<WorkTable> {
    {CanvasStates, CanvasSnapshots, CustomNodes, CloudCredentials, PairedAgents}
  }

  function AllLinks(): set<LinkTable> {
    {ProjectMembers, ProjectJoinRequests}
  }

  function AllPersonal(): set<PersonalTable> {
    {OauthIdentities, PasswordResets, UserAvatars}
  }

  /** `deleteProjectsTx`: projects and everything that hangs off them. */
  function WithoutProjects(db: Tables, ps: set<Id>): Tables {
    db.(
      work := WorkOutside(db.work, AllWork(), ps),
      links := LinksOutside(db.links, AllLinks(), ps),
      pairingTokens := TokensOutside(db.pairingTokens, ps),
      templates := TemplatesDetached(db.templates, ps),
      projects := db.projects - ps)
  }

  function WithoutTeams(db: Tables, ts: set<Id>): Tables {
    WithoutProjects(db, ProjectsIn(db.projects, ts)).(
      invitations := InvitationsOutside(db.invitations, ts),
      teamMembers := MembersOutside(db.teamMembers, ts),
      teams := db.teams - ts)
  }

  function OrphansPurged(db: Tables, user: Id): Tables {
    db.(work := WithoutOrphans(db.work, AllWork(), user, db.projects.Keys))
  }

  predicate Reassignable(db: Tables, user: Id) {
    CanReassignProjects(db, user) && CanReassignAll(Owners(db.teams, db.projects), db.work, user)
  }

  function Reassigned(db: Tables, user: Id): Tables {
    db.(
      projects := ProjectsReassigned(db, user),
      work := WorkReassigned(Owners(db.teams, db.projects), db.work, AllWork(), user))
  }

  function OwnRowsDeleted(db: Tables, user: Id): Tables {
    db.(
      contributions := ContributionsNotTo(ContributionsNotBy(db.contributions, user), db.templates, user),
      templates := TemplatesNotBy(db.templates, user),
      events := EventsCleared(db.events, user),
      links := LinksNotOf(db.links, AllLinks(), user),
      invitations := InvitationsNotBy(db.invitations, user),
      teamMembers := MembersNotOf(db.teamMembers, user),
      personal := PersonalNotOf(db.personal, AllPersonal(), user),
      users := db.users - {user})
  }

  // ---------- Blockers ----------

  datatype Reason = OtherMembers | LiveSubscription
  datatype Blocker = Blocker(team: Id, name: string, reason: Reason)

  predicate IsLiveStatus(status: string) {
    Lower(status) in ["active", "trialing", "past_due", "paused"]
  }

  predicate HasOtherMembers(db: Tables, team: Id, user: Id) {
    exists m | m in db.teamMembers :: db.teamMembers[m].team == team && db.teamMembers[m].user != user
  }

  predicate HasLiveSubscription(t: Team) {
    t.subscription.Some? && t.subscription.value != "" && IsLiveStatus(t.status)
  }

  function OwnedTeams(db: Tables, user: Id): set<Id> {
    set t | t in db.teams && db.teams[t].owner == user
  }

  predicate Blocks(db: Tables, user: Id, b: Blocker) {
    && b.team in OwnedTeams(db, user)
    && b.name == db.teams[b.team].name
    && match b.reason
       case OtherMembers => HasOtherMembers(db, b.team, user)
       case LiveSubscription => HasLiveSubscription(db.teams[b.team])
  }

  ghost predicate Unblocked(db: Tables, user: Id) {
    forall b :: !Blocks(db, user, b)
  }

  // ---------- The handler ----------

  datatype Outcome = Blocked(blockers: seq<Blocker>) | Failed | Deleted

  class Database {
    var db: Tables

    constructor (db: Tables)
      ensures this.db == db
    {
      this.db := db;
    }

    method Blockers(user: Id) returns (blockers: seq<Blocker>, owned: set<Id>)
      ensures owned == OwnedTeams(db, user)
      ensures forall b :: b in blockers <==> Blocks(db, user, b)
    {
      owned := OwnedTeams(db, user);
      blockers := [];
      var left := owned;
      while left != {}
        invariant left <= owned
        invariant forall b :: b in blockers <==> Blocks(db, user, b) && b.team !in left
        decreases left
      {
        var t :| t in left;
        left := left - {t};
        if HasOtherMembers(db, t, user) {
          blockers := blockers + [Blocker(t, db.teams[t].name, OtherMembers)];
        }
        if HasLiveSubscription(db.teams[t]) {
          blockers := blockers + [Blocker(t, db.teams[t].name, LiveSubscription)];
        }
      }
    }

    method DeleteProject(id: Id)
      modifies this
      ensures db == WithoutProjects(old(db), {id})
    {
      ghost var start, done := db.work, {};
      WorkTablesJoin(start, {}, {}, {id});
      for i := 0 to |WORK_TABLES|
        invariant done == set t | t in WORK_TABLES[..i]
        invariant db == old(db).(work := WorkOutside(start, done, {id}))
      {
        WorkTablesJoin(start, done, {WORK_TABLES[i]}, {id});
        db := db.(work := WorkOutside(db.work, {WORK_TABLES[i]}, {id}));
        done := done + {WORK_TABLES[i]};
      }
      EveryWorkTable(done);
      db := db.(pairingTokens := TokensOutside(db.pairingTokens, {id}));
      ghost var links, doneLinks := db.links, {};
      ghost var middle := db;
      LinkTablesJoin(links, {}, {}, {id});
      for i := 0 to |LINK_TABLES|
        invariant doneLinks == set t | t in LINK_TABLES[..i]
        invariant db == middle.(links := LinksOutside(links, doneLinks, {id}))
      {
        LinkTablesJoin(links, doneLinks, {LINK_TABLES[i]}, {id});
        db := db.(links := LinksOutside(db.links, {LINK_TABLES[i]}, {id}));
        doneLinks := doneLinks + {LINK_TABLES[i]};
      }
      EveryLinkTable(doneLinks);
      db := db.(templates := TemplatesDetached(db.templates, {id}));
      db := db.(projects := db.projects - {id});
    }

    method DeleteProjectsTx(projectIDs: set<Id>)
      modifies this
      ensures db == WithoutProjects(old(db), projectIDs)
    {
      ghost var start, done := db, {};
      var left := projectIDs;
      WithoutNothing(db);
      while left != {}
        invariant left + done == projectIDs && left !! done
        invariant db == WithoutProjects(start, done)
        decreases left
      {
        var id :| id in left;
        left := left - {id};
        DeleteProject(id);
        WithoutProjectsJoin(start, done, {id});
        done := done + {id};
      }
      assert done == projectIDs;
    }

    method DeleteTeams(owned: set<Id>)
      modifies this
      ensures db == WithoutTeams(old(db), owned)
    {
      ghost var start, done := db, {};
      var left := owned;
      WithoutNoTeams(db);
      while left != {}
        invariant left + done == owned && left !! done
        invariant db == WithoutTeams(start, done)
        decreases left
      {
        var t :| t in left;
        left := left - {t};
        ghost var before := db;
        DeleteProjectsTx(ProjectsIn(db.projects, {t}));
        db := db.(invitations := InvitationsOutside(db.invitations, {t}));
        db := db.(teamMembers := MembersOutside(db.teamMembers, {t}));
        db := db.(teams := db.teams - {t});
        assert db == WithoutTeams(before, {t});
        WithoutTeamsJoin(start, done, {t});
        done := done + {t};
      }
      assert done == owned;
    }

    method PurgeOrphans(user: Id)
      modifies this
      ensures db == OrphansPurged(old(db), user)
    {
      ghost var start, done := db.work, {};
      OrphanTablesJoin(start, {}, {}, user, db.projects.Keys);
      for i := 0 to |WORK_TABLES|
        invariant done == set t | t in WORK_TABLES[..i]
        invariant db == old(db).(work := WithoutOrphans(start, done, user, old(db).projects.Keys))
      {
        OrphanTablesJoin(start, done, {WORK_TABLES[i]}, user, db.projects.Keys);
        db := db.(work := WithoutOrphans(db.work, {WORK_TABLES[i]}, user, db.projects.Keys));
        done := done + {WORK_TABLES[i]};
      }
      EveryWorkTable(done);
    }

    /** UPDATE one table, unless that would write NULL. */
    method ReassignTable(table: WorkTable, user: Id) returns (ok: bool)
      modifies this
      ensures ok <==> CanReassign(Owners(old(db).teams, old(db).projects), old(db).work, {table}, user)
      ensures db == if ok then old(db).(work :=
        WorkReassigned(Owners(old(db).teams, old(db).projects), old(db).work, {table}, user)) else old(db)
    {
      ok := CanReassign(Owners(db.teams, db.projects), db.work, {table}, user);
      if ok {
        db := db.(work := WorkReassigned(Owners(db.teams, db.projects), db.work, {table}, user));
      }
    }

    /** One UPDATE per table; the first one that would write NULL stops the transaction. */
    method ReassignWork(user: Id) returns (ok: bool)
      modifies this
      ensures ok <==> CanReassignAll(Owners(old(db).teams, old(db).projects), old(db).work, user)
      ensures ok ==> db == old(db).(work :=
        WorkReassigned(Owners(old(db).teams, old(db).projects), old(db).work, AllWork(), user))
    {
      ghost var owners, start, done := Owners(db.teams, db.projects), db.work, {};
      NothingReassigned(owners, start, user);
      for i := 0 to |WORK_TABLES|
        invariant done == set t | t in WORK_TABLES[..i]
        invariant CanReassign(owners, start, done, user)
        invariant db == old(db).(work := WorkReassigned(owners, start, done, user))
      {
        ReassignOneMore(owners, start, done, WORK_TABLES[i], user);
        ok := ReassignTable(WORK_TABLES[i], user);
        if !ok {
          ReassignableInEveryTable(owners, start, done + {WORK_TABLES[i]}, user);
          return;
        }
        done := done + {WORK_TABLES[i]};
      }
      EveryWorkTable(done);
      ReassignableInEveryTable(owners, start, done, user);
      ok := true;
    }

    method Reassign(user: Id) returns (ok: bool)
      modifies this
      ensures ok <==> Reassignable(old(db), user)
      ensures ok ==> db == Reassigned(old(db), user)
    {
      if !CanReassignProjects(db, user) {
        return false;
      }
      OwnersKept(db, user);
      db := db.(projects := ProjectsReassigned(db, user));
      ok := ReassignWork(user);
    }

    method DeleteOwnRows(user: Id)
      modifies this
      ensures db == OwnRowsDeleted(old(db), user)
    {
      db := db.(contributions := ContributionsNotBy(db.contributions, user));
      db := db.(contributions := ContributionsNotTo(db.contributions, db.templates, user));
      db := db.(templates := TemplatesNotBy(db.templates, user));
      db := db.(events := EventsCleared(db.events, user));
      ghost var links, doneLinks, middle := db.links, {}, db;
      OwnLinkTablesJoin(links, {}, {}, user);
      for i := 0 to |LINK_TABLES|
        invariant doneLinks == set t | t in LINK_TABLES[..i]
        invariant db == middle.(links := LinksNotOf(links, doneLinks, user))
      {
        OwnLinkTablesJoin(links, doneLinks, {LINK_TABLES[i]}, user);
        db := db.(links := LinksNotOf(db.links, {LINK_TABLES[i]}, user));
        doneLinks := doneLinks + {LINK_TABLES[i]};
      }
      EveryLinkTable(doneLinks);
      db := db.(invitations := InvitationsNotBy(db.invitations, user));
      db := db.(teamMembers := MembersNotOf(db.teamMembers, user));
      ghost var personal, done, late := db.personal, {}, db;
      OwnPersonalTablesJoin(personal, {}, {}, user);
      for i := 0 to |PERSONAL_TABLES|
        invariant done == set t | t in PERSONAL_TABLES[..i]
        invariant db == late.(personal := PersonalNotOf(personal, done, user))
      {
        OwnPersonalTablesJoin(personal, done, {PERSONAL_TABLES[i]}, user);
        db := db.(personal := PersonalNotOf(db.personal, {PERSONAL_TABLES[i]}, user));
        done := done + {PERSONAL_TABLES[i]};
      }
      EveryPersonalTable(done);
      db := db.(users := db.users - {user});
    }

    method DeleteAccount(user: Id) returns (outcome: Outcome)
      modifies this
      ensures outcome.Blocked? <==> !Unblocked(old(db), user)
      ensures outcome.Blocked? ==> forall b :: b in outcome.blockers <==> Blocks(old(db), user, b)
      ensures outcome.Deleted? <==> Unblocked(old(db), user) && EveryOwnerFound(old(db), user)
      ensures db == if outcome.Deleted? then AfterDeletion(old(db), user) else old(db)
    {
      var blockers, owned := Blockers(user);
      if |blockers| > 0 {
        assert Blocks(db, user, blockers[0]);
        return Blocked(blockers);
      }
      var saved := db;
      DeleteTeams(owned);
      PurgeOrphans(user);
      var ok := Reassign(user);
      ReassignableFromStart(saved, user);
      if !ok {
        db := saved;
        return Failed;
      }
      DeleteOwnRows(user);
      StepsMeetSpecification(saved, user);
      outcome := Deleted;
    }
  }

  // ---------- What the whole transaction amounts to ----------

  /** The projects that go: those in the user's own teams. */
  function Gone(db: Tables, user: Id): set<Id> {
    ProjectsIn(db.projects, OwnedTeams(db, user))
  }

  /** What the reassignment needs of the database as it was before the deletion. */
  predicate EveryOwnerFound(db: Tables, user: Id) {
    && (forall p | p in db.projects && db.projects[p].createdBy == user :: db.projects[p].team in db.teams)
    && WorkOwnersFound(db, user)
  }

  predicate WorkOwnersFound(db: Tables, user: Id) {
    forall k | k in db.work && db.work[k].author == user && db.work[k].project in db.projects ::
      db.projects[db.work[k].project].team in db.teams
  }

  predicate WorkSurvives(projects: set<Id>, gone: set<Id>, w: Work, user: Id) {
    w.project !in gone && (w.author == user ==> w.project in projects)
  }

  function WorkLeft(work: map<Row<WorkTable>, Work>, projects: set<Id>, gone: set<Id>,
                    user: Id): map<Row<WorkTable>, Work>
  {
    map k | k in work && WorkSurvives(projects, gone, work[k], user) :: work[k]
  }

  function WorkAfter(work: map<Row<WorkTable>, Work>, projects: set<Id>, owners: map<Id, Id>, gone: set<Id>,
                     user: Id): map<Row<WorkTable>, Work>
  {
    map k | k in work && WorkSurvives(projects, gone, work[k], user) :: Reauthored(owners, work[k], user)
  }

  function ProjectsAfter(teams: map<Id, Team>, projects: map<Id, Project>, gone: set<Id>, user: Id): map<Id, Project> {
    map p | p in projects && p !in gone :: Recredited(teams, projects[p], user)
  }

  function LinksAfter(links: map<Row<LinkTable>, Link>, gone: set<Id>, user: Id): map<Row<LinkTable>, Link> {
    map k | k in links && links[k].user != user && links[k].project !in gone :: links[k]
  }

  function TemplatesAfter(templates: map<Id, Template>, gone: set<Id>, user: Id): map<Id, Template> {
    map k | k in templates && templates[k].author != user :: templates[k].(source := Detach(templates[k].source, gone))
  }

  function ContributionsAfter(contributions: map<Id, Contribution>, templates: map<Id, Template>,
                              user: Id): map<Id, Contribution>
  {
    ContributionsNotTo(ContributionsNotBy(contributions, user), templates, user)
  }

  function PersonalAfter(personal: map<Row<PersonalTable>, Personal>, user: Id): map<Row<PersonalTable>, Personal> {
    map k | k in personal && personal[k].user != user :: personal[k]
  }

  /** Every table described at once, from the database as it was. */
  function AfterDeletion(db: Tables, user: Id): Tables {
    var owned, gone := OwnedTeams(db, user), Gone(db, user);
    Tables(
      users := db.users - {user},
      teams := db.teams - owned,
      teamMembers := MembersNotOf(MembersOutside(db.teamMembers, owned), user),
      invitations := InvitationsNotBy(InvitationsOutside(db.invitations, owned), user),
      projects := ProjectsAfter(db.teams, db.projects, gone, user),
      work := WorkAfter(db.work, db.projects.Keys, Owners(db.teams, db.projects), gone, user),
      links := LinksAfter(db.links, gone, user),
      pairingTokens := TokensOutside(db.pairingTokens, gone),
      templates := TemplatesAfter(db.templates, gone, user),
      contributions := ContributionsAfter(db.contributions, db.templates, user),
      events := EventsCleared(db.events, user),
      personal := PersonalAfter(db.personal, user))
  }

  // ---------- Composition of the statements ----------

  lemma NoOtherTables()
    ensures forall t :: t in AllWork()
    ensures forall t :: t in AllLinks()
    ensures forall t :: t in AllPersonal()
  {
    forall t ensures t in AllWork() {
      match t
      case CanvasStates =>
      case CanvasSnapshots =>
      case CustomNodes =>
      case CloudCredentials =>
      case PairedAgents =>
    }
    forall t ensures t in AllLinks() {
      match t
      case ProjectMembers =>
      case ProjectJoinRequests =>
    }
    forall t ensures t in AllPersonal() {
      match t
      case OauthIdentities =>
      case PasswordResets =>
      case UserAvatars =>
    }
  }

  lemma EveryWorkTable(done: set<WorkTable>)
    requires done == set t | t in WORK_TABLES[..|WORK_TABLES|]
    ensures done == AllWork()
  {
    assert WORK_TABLES[..|WORK_TABLES|] == WORK_TABLES;
  }

  lemma EveryLinkTable(done: set<LinkTable>)
    requires done == set t | t in LINK_TABLES[..|LINK_TABLES|]
    ensures done == AllLinks()
  {
    assert LINK_TABLES[..|LINK_TABLES|] == LINK_TABLES;
  }

  lemma EveryPersonalTable(done: set<PersonalTable>)
    requires done == set t | t in PERSONAL_TABLES[..|PERSONAL_TABLES|]
    ensures done == AllPersonal()
  {
    assert PERSONAL_TABLES[..|PERSONAL_TABLES|] == PERSONAL_TABLES;
  }

  lemma WorkTablesJoin(t: map<Row<WorkTable>, Work>, a: set<WorkTable>, b: set<WorkTable>, ps: set<Id>)
    ensures WorkOutside(WorkOutside(t, a, ps), b, ps) == WorkOutside(t, a + b, ps)
    ensures WorkOutside(t, {}, ps) == t
  {
  }

  lemma LinkTablesJoin(t: map<Row<LinkTable>, Link>, a: set<LinkTable>, b: set<LinkTable>, ps: set<Id>)
    ensures LinksOutside(LinksOutside(t, a, ps), b, ps) == LinksOutside(t, a + b, ps)
    ensures LinksOutside(t, {}, ps) == t
  {
  }

  lemma OrphanTablesJoin(t: map<Row<WorkTable>, Work>, a: set<WorkTable>, b: set<WorkTable>, user: Id, ps: set<Id>)
    ensures WithoutOrphans(WithoutOrphans(t, a, user, ps), b, user, ps) == WithoutOrphans(t, a + b, user, ps)
    ensures WithoutOrphans(t, {}, user, ps) == t
  {
  }

  lemma OwnLinkTablesJoin(t: map<Row<LinkTable>, Link>, a: set<LinkTable>, b: set<LinkTable>, user: Id)
    ensures LinksNotOf(LinksNotOf(t, a, user), b, user) == LinksNotOf(t, a + b, user)
    ensures LinksNotOf(t, {}, user) == t
  {
  }

  lemma OwnPersonalTablesJoin(t: map<Row<PersonalTable>, Personal>, a: set<PersonalTable>, b: set<PersonalTable>,
                              user: Id)
    ensures PersonalNotOf(PersonalNotOf(t, a, user), b, user) == PersonalNotOf(t, a + b, user)
    ensures PersonalNotOf(t, {}, user) == t
  {
  }

  lemma WorkJoin(t: map<Row<WorkTable>, Work>, tables: set<WorkTable>, a: set<Id>, b: set<Id>)
    ensures WorkOutside(WorkOutside(t, tables, a), tables, b) == WorkOutside(t, tables, a + b)
    ensures WorkOutside(t, tables, {}) == t
  {
  }

  lemma LinksJoin(t: map<Row<LinkTable>, Link>, tables: set<LinkTable>, a: set<Id>, b: set<Id>)
    ensures LinksOutside(LinksOutside(t, tables, a), tables, b) == LinksOutside(t, tables, a + b)
    ensures LinksOutside(t, tables, {}) == t
  {
  }

  lemma TokensAndTemplatesJoin(tokens: map<Id, PairingToken>, templates: map<Id, Template>, a: set<Id>, b: set<Id>)
    ensures TokensOutside(TokensOutside(tokens, a), b) == TokensOutside(tokens, a + b)
    ensures TokensOutside(tokens, {}) == tokens
    ensures TemplatesDetached(TemplatesDetached(templates, a), b) == TemplatesDetached(templates, a + b)
    ensures TemplatesDetached(templates, {}) == templates
  {
  }

  lemma WithoutNothing(db: Tables)
    ensures WithoutProjects(db, {}) == db
  {
    WorkJoin(db.work, AllWork(), {}, {});
    LinksJoin(db.links, AllLinks(), {}, {});
    TokensAndTemplatesJoin(db.pairingTokens, db.templates, {}, {});
    assert db.projects - {} == db.projects;
  }

  lemma WithoutProjectsJoin(db: Tables, a: set<Id>, b: set<Id>)
    ensures WithoutProjects(WithoutProjects(db, a), b) == WithoutProjects(db, a + b)
  {
    WorkJoin(db.work, AllWork(), a, b);
    LinksJoin(db.links, AllLinks(), a, b);
    TokensAndTemplatesJoin(db.pairingTokens, db.templates, a, b);
    assert db.projects - a - b == db.projects - (a + b);
  }

  lemma WithoutNoTeams(db: Tables)
    ensures WithoutTeams(db, {}) == db
  {
    assert ProjectsIn(db.projects, {}) == {};
    WithoutNothing(db);
    assert db.teams - {} == db.teams;
  }

  lemma ProjectsInJoin(projects: map<Id, Project>, a: set<Id>, b: set<Id>)
    ensures var pa := ProjectsIn(projects, a);
            pa + ProjectsIn(projects - pa, b) == ProjectsIn(projects, a + b)
  {
  }

  lemma TeamRowsJoin(members: map<Id, TeamMember>, invitations: map<Id, Invitation>, a: set<Id>, b: set<Id>)
    ensures MembersOutside(MembersOutside(members, a), b) == MembersOutside(members, a + b)
    ensures InvitationsOutside(InvitationsOutside(invitations, a), b) == InvitationsOutside(invitations, a + b)
  {
  }

  lemma WithoutTeamsJoin(db: Tables, a: set<Id>, b: set<Id>)
    ensures WithoutTeams(WithoutTeams(db, a), b) == WithoutTeams(db, a + b)
  {
    var pa := ProjectsIn(db.projects, a);
    ProjectsInJoin(db.projects, a, b);
    WithoutProjectsJoin(db, pa, ProjectsIn(db.projects - pa, b));
    TeamRowsJoin(db.teamMembers, db.invitations, a, b);
    assert db.teams - a - b == db.teams - (a + b);
  }

  lemma NothingReassigned(owners: map<Id, Id>, work: map<Row<WorkTable>, Work>, user: Id)
    ensures CanReassign(owners, work, {}, user) && WorkReassigned(owners, work, {}, user) == work
  {
  }

  /** Other tables' rows do not matter to the next statement. */
  lemma ReassignOneMore(
      owners: map<Id, Id>, work: map<Row<WorkTable>, Work>, done: set<WorkTable>, table: WorkTable, user: Id)
    requires table !in done && CanReassign(owners, work, done, user)
    ensures var t := WorkReassigned(owners, work, done, user);
            && (CanReassign(owners, t, {table}, user) <==> CanReassign(owners, work, done + {table}, user))
            && WorkReassigned(owners, t, {table}, user) == WorkReassigned(owners, work, done + {table}, user)
  {
    var t := WorkReassigned(owners, work, done, user);
    assert forall k | k in work && k.table == table :: t[k] == work[k];
    if CanReassign(owners, t, {table}, user) {
      forall k | k in work && k.table == table && work[k].author == user ensures work[k].project in owners {
        assert k in t;
      }
    }
  }

  lemma ReassignableInEveryTable(
      owners: map<Id, Id>, work: map<Row<WorkTable>, Work>, tables: set<WorkTable>, user: Id)
    ensures CanReassignAll(owners, work, user) ==> CanReassign(owners, work, tables, user)
    ensures tables == AllWork() && CanReassign(owners, work, tables, user) ==> CanReassignAll(owners, work, user)
  {
    NoOtherTables();
  }

  /** Reassigning projects moves none of them between teams. */
  lemma OwnersKept(db: Tables, user: Id)
    ensures Owners(db.teams, ProjectsReassigned(db, user)) == Owners(db.teams, db.projects)
  {
  }

  function Prepared(db: Tables, user: Id): Tables {
    OrphansPurged(WithoutTeams(db, OwnedTeams(db, user)), user)
  }

  lemma PreparedOwners(teams: map<Id, Team>, projects: map<Id, Project>, owned: set<Id>)
    ensures Owners(teams - owned, projects - ProjectsIn(projects, owned))
         == Owners(teams, projects) - ProjectsIn(projects, owned)
  {
  }

  lemma PreparedWork(work: map<Row<WorkTable>, Work>, projects: map<Id, Project>, gone: set<Id>, user: Id)
    ensures WithoutOrphans(WorkOutside(work, AllWork(), gone), AllWork(), user, (projects - gone).Keys)
         == WorkLeft(work, projects.Keys, gone, user)
  {
    NoOtherTables();
  }

  lemma WorkMeetsSpecification(work: map<Row<WorkTable>, Work>, projects: map<Id, Project>, owners: map<Id, Id>,
                               gone: set<Id>, user: Id)
    ensures WorkReassigned(owners - gone, WorkLeft(work, projects.Keys, gone, user), AllWork(), user) ==
            WorkAfter(work, projects.Keys, owners, gone, user)
  {
    NoOtherTables();
  }

  lemma ReassignableFromStart(db: Tables, user: Id)
    ensures Reassignable(Prepared(db, user), user) <==> EveryOwnerFound(db, user)
  {
    ProjectsReassignable(db, user);
    WorkReassignable(db, user);
  }

  lemma ProjectsReassignable(db: Tables, user: Id)
    ensures CanReassignProjects(Prepared(db, user), user) <==>
      forall p | p in db.projects && db.projects[p].createdBy == user :: db.projects[p].team in db.teams
  {
    var pre := Prepared(db, user);
    if CanReassignProjects(pre, user) {
      forall p | p in db.projects && db.projects[p].createdBy == user
        ensures db.projects[p].team in db.teams
      {
        assert p !in Gone(db, user) ==> p in pre.projects && pre.projects[p] == db.projects[p];
      }
    }
  }

  lemma WorkReassignable(db: Tables, user: Id)
    ensures CanReassignAll(Owners(Prepared(db, user).teams, Prepared(db, user).projects), Prepared(db, user).work, user)
       <==> WorkOwnersFound(db, user)
  {
    var gone := Gone(db, user);
    PreparedOwners(db.teams, db.projects, OwnedTeams(db, user));
    PreparedWork(db.work, db.projects, gone, user);
    OwnersFound(db, user, gone, Owners(db.teams, db.projects) - gone);
  }

  lemma OwnersFound(db: Tables, user: Id, gone: set<Id>, owners: map<Id, Id>)
    requires gone == Gone(db, user) && owners == Owners(db.teams, db.projects) - gone
    ensures CanReassignAll(owners, WorkLeft(db.work, db.projects.Keys, gone, user), user) <==> WorkOwnersFound(db, user)
  {
    var left := WorkLeft(db.work, db.projects.Keys, gone, user);
    if CanReassignAll(owners, left, user) {
      forall k | k in db.work && db.work[k].author == user && db.work[k].project in db.projects
        ensures db.projects[db.work[k].project].team in db.teams
      {
        assert db.work[k].project !in gone ==> k in left;
      }
    }
  }

  lemma StepsMeetSpecification(db: Tables, user: Id)
    ensures OwnRowsDeleted(Reassigned(Prepared(db, user), user), user) == AfterDeletion(db, user)
  {
    var owned, gone := OwnedTeams(db, user), Gone(db, user);
    PreparedOwners(db.teams, db.projects, owned);
    PreparedWork(db.work, db.projects, gone, user);
    WorkMeetsSpecification(db.work, db.projects, Owners(db.teams, db.projects), gone, user);
    ProjectsMeetSpecification(db, user);
    LinksMeetSpecification(db.links, gone, user);
    MarketMeetsSpecification(db.contributions, db.templates, gone, user);
    PersonalMeetsSpecification(db.personal, user);
  }

  lemma LinksMeetSpecification(links: map<Row<LinkTable>, Link>, gone: set<Id>, user: Id)
    ensures LinksNotOf(LinksOutside(links, AllLinks(), gone), AllLinks(), user) == LinksAfter(links, gone, user)
  {
    NoOtherTables();
  }

  lemma PersonalMeetsSpecification(personal: map<Row<PersonalTable>, Personal>, user: Id)
    ensures PersonalNotOf(personal, AllPersonal(), user) == PersonalAfter(personal, user)
  {
    NoOtherTables();
  }

  lemma ProjectsMeetSpecification(db: Tables, user: Id)
    ensures ProjectsReassigned(Prepared(db, user), user) == ProjectsAfter(db.teams, db.projects, Gone(db, user), user)
  {
  }

  lemma MarketMeetsSpecification(contributions: map<Id, Contribution>, templates: map<Id, Template>, gone: set<Id>,
                                 user: Id)
    ensures TemplatesNotBy(TemplatesDetached(templates, gone), user) == TemplatesAfter(templates, gone, user)
    ensures ContributionsNotTo(ContributionsNotBy(contributions, user), TemplatesDetached(templates, gone), user)
         == ContributionsAfter(contributions, templates, user)
  {
  }
}
