/** What an account deletion guarantees: no trace of the user, no broken foreign key, no harm to
    anybody else's data, and no dependence on who leaves first. */
module AccountDeleteFacts {
  import opened AccountDelete
  import opened Common

  // ---------- No trace ----------

  ghost predicate NotInTeams(db: Tables, user: Id) {
    && (forall k | k in db.teams :: db.teams[k].owner != user)
    && (forall k | k in db.teamMembers :: db.teamMembers[k].user != user)
    && (forall k | k in db.invitations :: db.invitations[k].invitedBy != user)
  }

  ghost predicate NotInProjects(db: Tables, user: Id) {
    && (forall k | k in db.projects :: db.projects[k].createdBy != user)
    && (forall k | k in db.work :: db.work[k].author != user)
    && (forall k | k in db.links :: db.links[k].user != user)
  }

  ghost predicate NotInMarketplace(db: Tables, user: Id) {
    && (forall k | k in db.templates :: db.templates[k].author != user)
    && (forall k | k in db.contributions :: db.contributions[k].contributor != user)
  }

  /** No row names `user` in a column the deletion handles. */
  ghost predicate NoTrace(db: Tables, user: Id) {
    && user !in db.users
    && NotInTeams(db, user) && NotInProjects(db, user) && NotInMarketplace(db, user)
    && (forall k | k in db.events :: db.events[k].actor != Some(user))
    && (forall k | k in db.personal :: db.personal[k].user != user)
  }

  /** Where the reassignment succeeds, surviving work of the user's goes to the owner of its team,
      which is another user's. */
  lemma WorkGoesToOwner(db: Tables, user: Id, k: Row<WorkTable>)
    requires EveryOwnerFound(db, user) && k in AfterDeletion(db, user).work && db.work[k].author == user
    ensures db.work[k].project in db.projects
    ensures var team := db.projects[db.work[k].project].team;
            && team in db.teams && db.teams[team].owner != user
            && AfterDeletion(db, user).work[k].author == db.teams[team].owner
  {
    assert db.projects[db.work[k].project].team !in OwnedTeams(db, user);
  }

  lemma NoAuthorLeft(db: Tables, user: Id)
    requires EveryOwnerFound(db, user)
    ensures var after := AfterDeletion(db, user); forall k | k in after.work :: after.work[k].author != user
  {
    var after := AfterDeletion(db, user);
    forall k | k in after.work ensures after.work[k].author != user {
      if db.work[k].author == user {
        WorkGoesToOwner(db, user, k);
      }
    }
  }

  lemma NoCreatorLeft(db: Tables, user: Id)
    requires EveryOwnerFound(db, user)
    ensures var after := AfterDeletion(db, user); forall p | p in after.projects :: after.projects[p].createdBy != user
  {
    var after := AfterDeletion(db, user);
    forall p | p in after.projects ensures after.projects[p].createdBy != user {
      assert db.projects[p].team !in OwnedTeams(db, user);
    }
  }

  lemma NotInProjectsLeft(db: Tables, user: Id)
    requires EveryOwnerFound(db, user)
    ensures NotInProjects(AfterDeletion(db, user), user)
  {
    NoAuthorLeft(db, user);
    NoCreatorLeft(db, user);
  }

  lemma NotInTeamsLeft(db: Tables, user: Id)
    ensures NotInTeams(AfterDeletion(db, user), user)
  {
  }

  lemma NotInMarketplaceLeft(db: Tables, user: Id)
    ensures NotInMarketplace(AfterDeletion(db, user), user)
  {
  }

  /** A committed deletion leaves no trace. */
  lemma NoTraceLeft(db: Tables, user: Id)
    requires EveryOwnerFound(db, user)
    ensures NoTrace(AfterDeletion(db, user), user)
  {
    NotInProjectsLeft(db, user);
    NotInTeamsLeft(db, user);
    NotInMarketplaceLeft(db, user);
  }

  /** Where every project has a team the transaction always commits, orphaned rows or not. */
  lemma CommitsWhenProjectsHaveTeams(db: Tables, user: Id)
    requires FkProjectTeam(db)
    ensures EveryOwnerFound(db, user)
  {
    forall p | p in db.projects ensures db.projects[p].team in db.teams {
    }
  }

  // ---------- Foreign keys ----------

  ghost predicate FkTeamOwner(db: Tables) {
    forall k | k in db.teams :: db.teams[k].owner in db.users
  }

  ghost predicate FkMember(db: Tables) {
    forall k | k in db.teamMembers :: db.teamMembers[k].team in db.teams && db.teamMembers[k].user in db.users
  }

  ghost predicate FkInvitation(db: Tables) {
    forall k | k in db.invitations :: db.invitations[k].team in db.teams && db.invitations[k].invitedBy in db.users
  }

  ghost predicate FkProjectTeam(db: Tables) {
    forall p | p in db.projects :: db.projects[p].team in db.teams
  }

  ghost predicate FkProjectCreator(db: Tables) {
    forall p | p in db.projects :: db.projects[p].createdBy in db.users
  }

  ghost predicate FkWorkProject(db: Tables, table: WorkTable) {
    forall k | k in db.work && k.table == table :: db.work[k].project in db.projects
  }

  ghost predicate FkWorkAuthor(db: Tables, table: WorkTable) {
    forall k | k in db.work && k.table == table :: db.work[k].author in db.users
  }

  ghost predicate FkLink(db: Tables, table: LinkTable) {
    forall k | k in db.links && k.table == table :: db.links[k].project in db.projects && db.links[k].user in db.users
  }

  ghost predicate FkToken(db: Tables) {
    forall k | k in db.pairingTokens :: db.pairingTokens[k].project in db.projects
  }

  ghost predicate FkTemplateSource(db: Tables) {
    forall k | k in db.templates && db.templates[k].source.Some? :: db.templates[k].source.value in db.projects
  }

  ghost predicate FkContribution(db: Tables) {
    forall k | k in db.contributions :: db.contributions[k].template in db.templates
  }

  ghost predicate FkPersonal(db: Tables, table: PersonalTable) {
    forall k | k in db.personal && k.table == table :: db.personal[k].user in db.users
  }

  /** Each declared foreign key that held before holds after, one by one: a database with orphans
      in one table keeps the keys of all the others. */
  lemma TeamKeysKept(db: Tables, user: Id)
    ensures FkTeamOwner(db) ==> FkTeamOwner(AfterDeletion(db, user))
    ensures FkMember(db) ==> FkMember(AfterDeletion(db, user))
    ensures FkInvitation(db) ==> FkInvitation(AfterDeletion(db, user))
    ensures FkProjectTeam(db) ==> FkProjectTeam(AfterDeletion(db, user))
  {
  }

  lemma ProjectCreatorKept(db: Tables, user: Id)
    requires EveryOwnerFound(db, user) && FkTeamOwner(db) && FkProjectCreator(db)
    ensures FkProjectCreator(AfterDeletion(db, user))
  {
    var after := AfterDeletion(db, user);
    forall p | p in after.projects ensures after.projects[p].createdBy in after.users {
      assert db.projects[p].team !in OwnedTeams(db, user);
    }
  }

  lemma WorkProjectKept(db: Tables, user: Id, table: WorkTable)
    requires FkWorkProject(db, table)
    ensures FkWorkProject(AfterDeletion(db, user), table)
  {
    var after := AfterDeletion(db, user);
    forall k | k in after.work && k.table == table ensures after.work[k].project in after.projects {
      assert after.work[k].project == db.work[k].project;
    }
  }

  lemma WorkAuthorKept(db: Tables, user: Id, table: WorkTable)
    requires EveryOwnerFound(db, user) && FkTeamOwner(db) && FkWorkAuthor(db, table)
    ensures FkWorkAuthor(AfterDeletion(db, user), table)
  {
    var after := AfterDeletion(db, user);
    forall k | k in after.work && k.table == table ensures after.work[k].author in after.users {
      if db.work[k].author == user {
        WorkGoesToOwner(db, user, k);
      }
    }
  }

  lemma ProjectRowKeysKept(db: Tables, user: Id, table: LinkTable)
    ensures FkLink(db, table) ==> FkLink(AfterDeletion(db, user), table)
    ensures FkToken(db) ==> FkToken(AfterDeletion(db, user))
  {
  }

  lemma TemplateKeysKept(db: Tables, user: Id)
    ensures FkTemplateSource(db) ==> FkTemplateSource(AfterDeletion(db, user))
    ensures FkContribution(db) ==> FkContribution(AfterDeletion(db, user))
  {
  }

  lemma PersonalKeysKept(db: Tables, user: Id, table: PersonalTable)
    ensures FkPersonal(db, table) ==> FkPersonal(AfterDeletion(db, user), table)
  {
  }

  // ---------- Frame ----------

  ghost predicate SameExceptAuthor(w: Work, was: Work, user: Id, owner: Id) {
    w == if was.author == user then was.(author := owner) else was
  }

  /** A team the user does not own keeps all its projects and all the work in them, row for row;
      what the user had created there is credited to that team's owner. */
  lemma OtherTeamsKeepTheirWork(db: Tables, user: Id, team: Id)
    requires team in db.teams && db.teams[team].owner != user
    ensures var after := AfterDeletion(db, user);
            && team in after.teams && after.teams[team] == db.teams[team]
            && ProjectsIn(after.projects, {team}) == ProjectsIn(db.projects, {team})
            && (forall p | p in ProjectsIn(db.projects, {team}) ::
                  after.projects[p] == if db.projects[p].createdBy == user
                                       then db.projects[p].(createdBy := db.teams[team].owner) else db.projects[p])
            && (forall k :: k in after.work && after.work[k].project in ProjectsIn(db.projects, {team})
                       <==> k in db.work && db.work[k].project in ProjectsIn(db.projects, {team}))
            && (forall k | k in db.work && db.work[k].project in ProjectsIn(db.projects, {team}) ::
                  k in after.work && SameExceptAuthor(after.work[k], db.work[k], user, db.teams[team].owner))
            && (forall k ::
                  k in after.pairingTokens && after.pairingTokens[k].project in ProjectsIn(db.projects, {team})
                  <==> k in db.pairingTokens && db.pairingTokens[k].project in ProjectsIn(db.projects, {team}))
            && (forall k | k in after.pairingTokens ::
                  k in db.pairingTokens && after.pairingTokens[k] == db.pairingTokens[k])
  {
  }

  /** Nobody else loses a membership, a request, an invitation or a personal row outside the
      deleted teams, and the audit log loses no event. */
  lemma OtherPeopleKeepTheirRows(db: Tables, user: Id, other: Id)
    requires other != user
    ensures var after, owned, gone := AfterDeletion(db, user), OwnedTeams(db, user), Gone(db, user);
            && (other in after.users <==> other in db.users)
            && (forall k | k in db.teamMembers && db.teamMembers[k].user == other && db.teamMembers[k].team !in owned ::
                  k in after.teamMembers && after.teamMembers[k] == db.teamMembers[k])
            && (forall k |
                  k in db.invitations && db.invitations[k].invitedBy == other && db.invitations[k].team !in owned ::
                  k in after.invitations && after.invitations[k] == db.invitations[k])
            && (forall k | k in db.links && db.links[k].user == other && db.links[k].project !in gone ::
                  k in after.links && after.links[k] == db.links[k])
            && (forall k | k in db.personal && db.personal[k].user == other ::
                  k in after.personal && after.personal[k] == db.personal[k])
            && after.events.Keys == db.events.Keys
            && (forall k | k in db.events && db.events[k].actor != Some(user) :: after.events[k] == db.events[k])
  {
  }

  /** Work of anybody else outside the deleted teams is untouched, whether or not its project still exists. */
  lemma OtherPeopleKeepTheirWork(db: Tables, user: Id, k: Row<WorkTable>)
    requires k in db.work && db.work[k].author != user
    ensures var after := AfterDeletion(db, user);
            && (k in after.work <==> db.work[k].project !in Gone(db, user))
            && (k in after.work ==> after.work[k] == db.work[k])
  {
  }

  /** Another author's template survives, losing at most a source that is gone, and so does every
      contribution somebody else made to it. */
  lemma OtherTemplatesSurvive(db: Tables, user: Id, t: Id)
    requires t in db.templates && db.templates[t].author != user
    ensures var after := AfterDeletion(db, user);
            && t in after.templates
            && after.templates[t] == db.templates[t].(source := Detach(db.templates[t].source, Gone(db, user)))
            && (forall k | k in db.contributions && db.contributions[k].template == t ::
                  k in after.contributions <==> db.contributions[k].contributor != user)
            && (forall k | k in after.contributions ::
                  k in db.contributions && after.contributions[k] == db.contributions[k])
  {
  }

  // ---------- Two deletions ----------

  lemma StillUnblocked(db: Tables, u: Id, v: Id)
    requires u != v && Unblocked(db, v)
    ensures Unblocked(AfterDeletion(db, u), v)
  {
    var after := AfterDeletion(db, u);
    forall b ensures !Blocks(after, v, b) {
      if Blocks(after, v, b) {
        assert Blocks(db, v, b);
      }
    }
  }

  /** The team of a project that stays, stays. */
  lemma TeamStays(db: Tables, u: Id, p: Id)
    requires p in AfterDeletion(db, u).projects && db.projects[p].team in db.teams
    ensures AfterDeletion(db, u).projects[p].team in AfterDeletion(db, u).teams
  {
    assert p !in Gone(db, u);
  }

  lemma ProjectOwnersStillFound(db: Tables, u: Id, v: Id, p: Id)
    requires EveryOwnerFound(db, u) && EveryOwnerFound(db, v)
    requires p in AfterDeletion(db, u).projects && AfterDeletion(db, u).projects[p].createdBy == v
    ensures AfterDeletion(db, u).projects[p].team in AfterDeletion(db, u).teams
  {
    assert db.projects[p].createdBy in {u, v};
    TeamStays(db, u, p);
  }

  lemma WorkOwnersStillFound(db: Tables, u: Id, v: Id, k: Row<WorkTable>)
    requires EveryOwnerFound(db, u) && EveryOwnerFound(db, v)
    requires var after := AfterDeletion(db, u);
             k in after.work && after.work[k].author == v && after.work[k].project in after.projects
    ensures var after := AfterDeletion(db, u); after.projects[after.work[k].project].team in after.teams
  {
    assert db.work[k].author in {u, v};
    TeamStays(db, u, db.work[k].project);
  }

  /** One user's leaving never blocks another's, nor makes it fail. */
  lemma DeletionNeverBlocks(db: Tables, u: Id, v: Id)
    requires u != v
    ensures Unblocked(db, v) ==> Unblocked(AfterDeletion(db, u), v)
    ensures EveryOwnerFound(db, u) && EveryOwnerFound(db, v) ==> EveryOwnerFound(AfterDeletion(db, u), v)
  {
    if Unblocked(db, v) {
      StillUnblocked(db, u, v);
    }
    if EveryOwnerFound(db, u) && EveryOwnerFound(db, v) {
      var after := AfterDeletion(db, u);
      forall p | p in after.projects && after.projects[p].createdBy == v ensures after.projects[p].team in after.teams {
        ProjectOwnersStillFound(db, u, v, p);
      }
      forall k | k in after.work && after.work[k].author == v && after.work[k].project in after.projects
        ensures after.projects[after.work[k].project].team in after.teams
      {
        WorkOwnersStillFound(db, u, v, k);
      }
    }
  }

  lemma PeopleCommute(members: map<Id, TeamMember>, invitations: map<Id, Invitation>, a: set<Id>, b: set<Id>, u: Id,
                      v: Id)
    ensures MembersNotOf(MembersOutside(MembersNotOf(MembersOutside(members, a), u), b), v)
         == MembersNotOf(MembersOutside(MembersNotOf(MembersOutside(members, b), v), a), u)
    ensures InvitationsNotBy(InvitationsOutside(InvitationsNotBy(InvitationsOutside(invitations, a), u), b), v)
         == InvitationsNotBy(InvitationsOutside(InvitationsNotBy(InvitationsOutside(invitations, b), v), a), u)
  {
  }

  lemma PersonalCommutes(personal: map<Row<PersonalTable>, Personal>, events: map<Id, Event>, u: Id, v: Id)
    ensures PersonalAfter(PersonalAfter(personal, u), v) == PersonalAfter(PersonalAfter(personal, v), u)
    ensures EventsCleared(EventsCleared(events, u), v) == EventsCleared(EventsCleared(events, v), u)
  {
  }

  lemma LinksCommute(links: map<Row<LinkTable>, Link>, tokens: map<Id, PairingToken>, a: set<Id>, b: set<Id>, u: Id,
                     v: Id)
    ensures LinksAfter(LinksAfter(links, a, u), b - a, v) == LinksAfter(LinksAfter(links, b, v), a - b, u)
    ensures TokensOutside(TokensOutside(tokens, a), b - a) == TokensOutside(TokensOutside(tokens, b), a - b)
  {
  }

  lemma TemplatesCommute(templates: map<Id, Template>, a: set<Id>, b: set<Id>, u: Id, v: Id)
    ensures TemplatesAfter(TemplatesAfter(templates, a, u), b - a, v) ==
            TemplatesAfter(TemplatesAfter(templates, b, v), a - b, u)
  {
  }

  ghost predicate Untouched(c: Contribution, templates: map<Id, Template>, u: Id, v: Id) {
    && c.contributor !in {u, v}
    && (c.template in templates ==> templates[c.template].author !in {u, v})
  }

  ghost function UntouchedContributions(contributions: map<Id, Contribution>, templates: map<Id, Template>, u: Id,
                                        v: Id): map<Id, Contribution>
  {
    map k | k in contributions && Untouched(contributions[k], templates, u, v) :: contributions[k]
  }

  lemma ContributionsTwice(templates: map<Id, Template>, contributions: map<Id, Contribution>, a: set<Id>, u: Id, v: Id)
    ensures ContributionsAfter(ContributionsAfter(contributions, templates, u), TemplatesAfter(templates, a, u), v)
         == UntouchedContributions(contributions, templates, u, v)
  {
  }

  lemma UntouchedEitherWay(templates: map<Id, Template>, contributions: map<Id, Contribution>, u: Id, v: Id)
    ensures UntouchedContributions(contributions, templates, u, v) ==
            UntouchedContributions(contributions, templates, v, u)
  {
  }

  /** Work reassigned by the first deletion is either swept away by the second or left alone. */
  lemma WorkCommutes(work: map<Row<WorkTable>, Work>, projects: set<Id>, owners: map<Id, Id>, a: set<Id>, b: set<Id>,
                     u: Id, v: Id)
    requires u != v
    requires forall p | p in owners && p !in a && p !in b :: owners[p] != u && owners[p] != v
    ensures WorkAfter(WorkAfter(work, projects, owners, a, u), projects - a, owners - a, b - a, v)
         == WorkAfter(WorkAfter(work, projects, owners, b, v), projects - b, owners - b, a - b, u)
  {
    WorkFates(work, projects, owners, a, b, u, v);
    WorkFates(work, projects, owners, b, a, v, u);
    var t1 := WorkAfter(WorkAfter(work, projects, owners, a, u), projects - a, owners - a, b - a, v);
    var t2 := WorkAfter(WorkAfter(work, projects, owners, b, v), projects - b, owners - b, a - b, u);
    assert forall k | k in work :: k in t1 <==> k in t2;
    assert forall k | k in t1 :: t1[k] == t2[k];
  }

  lemma WorkFates(work: map<Row<WorkTable>, Work>, projects: set<Id>, owners: map<Id, Id>, a: set<Id>, b: set<Id>,
                  u: Id, v: Id)
    requires u != v
    requires forall p | p in owners && p !in a && p !in b :: owners[p] != u && owners[p] != v
    ensures forall k | k in work :: WorkFate(work, projects, owners, a, b, u, v, k)
  {
  }

  ghost predicate WorkFate(work: map<Row<WorkTable>, Work>, projects: set<Id>, owners: map<Id, Id>, a: set<Id>,
                           b: set<Id>, u: Id, v: Id, k: Row<WorkTable>)
    requires k in work
  {
    var t := WorkAfter(WorkAfter(work, projects, owners, a, u), projects - a, owners - a, b - a, v);
    && (k in t <==> WorkSurvives(projects, a, work[k], u) && WorkSurvives(projects, b, work[k], v))
    && (k in t ==> t[k] == if work[k].author == u || work[k].author == v
                           then Reauthored(owners, work[k], work[k].author) else work[k])
  }

  lemma ProjectsCommute(teams: map<Id, Team>, projects: map<Id, Project>, ta: set<Id>, tb: set<Id>, u: Id, v: Id)
    requires u != v
    requires forall t | t in teams && t !in ta && t !in tb :: teams[t].owner != u && teams[t].owner != v
    ensures var a, b := ProjectsIn(projects, ta), ProjectsIn(projects, tb);
            ( ProjectsAfter(teams - ta, ProjectsAfter(teams, projects, a, u), b - a, v)
              == ProjectsAfter(teams - tb, ProjectsAfter(teams, projects, b, v), a - b, u))
  {
  }

  lemma GoneCommutes(teams: map<Id, Team>, projects: map<Id, Project>, ta: set<Id>, tb: set<Id>, u: Id)
    requires forall t | t in ta :: t in teams
    ensures var a := ProjectsIn(projects, ta);
            var after := ProjectsAfter(teams, projects, a, u);
            && after.Keys == projects.Keys - a
            && ProjectsIn(after, tb) == ProjectsIn(projects, tb) - a
            && Owners(teams - ta, after) == Owners(teams, projects) - a
  {
  }

  lemma OwnedCommutes(db: Tables, u: Id, v: Id)
    requires u != v
    ensures OwnedTeams(AfterDeletion(db, u), v) == OwnedTeams(db, v)
    ensures db.teams - OwnedTeams(db, u) - OwnedTeams(db, v) == db.teams - OwnedTeams(db, v) - OwnedTeams(db, u)
  {
  }

  /** Two accounts can be deleted in either order. */
  lemma DeletionsCommute(db: Tables, u: Id, v: Id)
    ensures AfterDeletion(AfterDeletion(db, u), v) == AfterDeletion(AfterDeletion(db, v), u)
  {
    if u != v {
      var ta, tb := OwnedTeams(db, u), OwnedTeams(db, v);
      var a, b := Gone(db, u), Gone(db, v);
      OwnedCommutes(db, u, v);
      OwnedCommutes(db, v, u);
      GoneCommutes(db.teams, db.projects, ta, tb, u);
      GoneCommutes(db.teams, db.projects, tb, ta, v);
      PeopleCommute(db.teamMembers, db.invitations, ta, tb, u, v);
      PersonalCommutes(db.personal, db.events, u, v);
      LinksCommute(db.links, db.pairingTokens, a, b, u, v);
      TemplatesCommute(db.templates, a, b, u, v);
      ContributionsTwice(db.templates, db.contributions, a, u, v);
      ContributionsTwice(db.templates, db.contributions, b, v, u);
      UntouchedEitherWay(db.templates, db.contributions, u, v);
      ProjectsCommute(db.teams, db.projects, ta, tb, u, v);
      WorkCommutes(db.work, db.projects.Keys, Owners(db.teams, db.projects), a, b, u, v);
      assert db.users - {u} - {v} == db.users - {v} - {u};
    }
  }
}
