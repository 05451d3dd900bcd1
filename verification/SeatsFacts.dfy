/** What every run of the team and project handlers keeps. */
module SeatsFacts {
  import opened Common
  import opened Seats

  function Max(a: nat, b: nat): nat {
    if a < b then b else a
  }

  datatype Request = Request(at: int, action: Action)

  /** The tables after a run, if every request of it was possible. */
  function Outcome(db: Tables, enforced: bool, run: seq<Request>): Option<Tables> {
    if run == [] then Some(db)
    else
      var before := Outcome(db, enforced, run[..|run| - 1]);
      var r := run[|run| - 1];
      if before.Some? && Enabled(before.value, r.action)
        then Some(Handled(before.value, enforced, r.at, r.action).0) else None
  }

  // ---------- One owner per team ----------

  /** Ids and references that the handlers never break. */
  ghost predicate Sound(db: Tables) {
    && (forall k | k in db.members :: k.team in db.teams)
    && (forall i | i in db.invites :: db.invites[i].team in db.teams && GrantableRole(db.invites[i].role))
  }

  /** Exactly one OWNER row, and it is the one that owner_id names. */
  ghost predicate OneOwner(db: Tables, team: Id)
    requires team in db.teams
  {
    forall u :: Seat(team, u) in db.members && db.members[Seat(team, u)] == "OWNER" <==> u == db.teams[team].owner
  }

  ghost predicate Owners(db: Tables) {
    forall t | t in db.teams :: OneOwner(db, t)
  }

  ghost predicate Owned(db: Tables) {
    Sound(db) && Owners(db)
  }

  lemma InvitedSound(db: Tables, enforced: bool, now: int, a: Action)
    requires a.CreateInvite? && Sound(db)
    ensures Sound(Invited(db, enforced, now, a).0)
  {
  }

  lemma RedeemedSound(db: Tables, enforced: bool, now: int, user: Id, id: Id)
    requires user in db.emails && Sound(db)
    ensures Sound(Redeemed(db, enforced, now, user, id).0)
  {
  }

  lemma SlotKeeps(db: Tables, enforced: bool, a: Action)
    requires a.CreateProject? || a.UseTemplate? || a.Archive? || a.Unarchive? || a.DeleteProject?
    ensures SlotStep(db, enforced, a).0 == db.(projects := SlotStep(db, enforced, a).0.projects)
  {
  }

  lemma AccountSound(db: Tables, user: Id, paying: bool)
    requires Sound(db)
    ensures Sound(WithoutAccount(db, user, paying).0)
  {
  }

  lemma AccountOwners(db: Tables, user: Id, paying: bool)
    requires Owners(db)
    ensures Owners(WithoutAccount(db, user, paying).0)
  {
    var next := WithoutAccount(db, user, paying).0;
    forall t | t in next.teams ensures OneOwner(next, t) {
      assert OneOwner(db, t);
    }
  }

  lemma SoundStep(db: Tables, enforced: bool, now: int, a: Action)
    requires Enabled(db, a) && Sound(db)
    ensures Sound(Handled(db, enforced, now, a).0)
  {
    match a
    case CreateInvite(_, _, _, _, _) => InvitedSound(db, enforced, now, a);
    case AcceptInvite(user, id) => RedeemedSound(db, enforced, now, user, id);
    case CreateTeam(_, _) =>
    case RevokeInvite(_, _) =>
    case ChangeRole(_, _, _) =>
    case RemoveMember(_, _) =>
    case SetPlan(_, _) =>
    case SetEmail(_, _, _) =>
    case DeleteAccount(user, paying) => AccountSound(db, user, paying);
    case _ => SlotKeeps(db, enforced, a);
  }

  lemma OwnerOfNewTeam(db: Tables, user: Id, team: Id)
    requires team !in db.teams && Owned(db)
    ensures Owners(db.(teams := db.teams[team := Team(user, "FREE")],
                       members := db.members[Seat(team, user) := "OWNER"]))
  {
    var next := db.(teams := db.teams[team := Team(user, "FREE")], members := db.members[Seat(team, user) := "OWNER"]);
    forall t | t in db.teams ensures OneOwner(next, t) {
      assert OneOwner(db, t);
    }
    assert forall u | Seat(team, u) in db.members :: Seat(team, u).team in db.teams;
    assert OneOwner(next, team);
  }

  /** A row that is not the owner's comes, goes, or gets a role other than OWNER. */
  lemma OtherRowChanged(db: Tables, next: Tables, seat: Seat)
    requires Owners(db) && next.teams == db.teams
    requires forall k | k != seat :: (k in next.members <==> k in db.members)
    requires forall k | k in next.members && k in db.members && k != seat :: next.members[k] == db.members[k]
    requires seat.team in db.teams ==> seat.user != db.teams[seat.team].owner
    requires seat in next.members ==> next.members[seat] != "OWNER"
    ensures Owners(next)
  {
    forall t | t in next.teams ensures OneOwner(next, t) {
      assert OneOwner(db, t);
    }
  }

  lemma OwnersSame(db: Tables, next: Tables)
    requires Owners(db) && next.teams.Keys == db.teams.Keys && next.members == db.members
    requires forall t | t in db.teams :: next.teams[t].owner == db.teams[t].owner
    ensures Owners(next)
  {
    forall t | t in next.teams ensures OneOwner(next, t) {
      assert OneOwner(db, t);
    }
  }

  lemma RedeemedMembers(db: Tables, enforced: bool, now: int, user: Id, id: Id)
    requires user in db.emails
    ensures var next := Redeemed(db, enforced, now, user, id).0;
      && next.teams == db.teams
      && (next.members == db.members
          || (id in db.invites && Seat(db.invites[id].team, user) !in db.members
              && next.members == db.members[Seat(db.invites[id].team, user) := db.invites[id].role]))
  {
  }

  lemma RedeemedOwners(db: Tables, enforced: bool, now: int, user: Id, id: Id)
    requires user in db.emails && Owned(db)
    ensures Owners(Redeemed(db, enforced, now, user, id).0)
  {
    var next := Redeemed(db, enforced, now, user, id).0;
    RedeemedMembers(db, enforced, now, user, id);
    if next.members == db.members {
      OwnersSame(db, next);
    } else {
      assert OneOwner(db, db.invites[id].team);
      OtherRowChanged(db, next, Seat(db.invites[id].team, user));
    }
  }

  lemma WithMemberOwners(db: Tables, team: Id, user: Id, role: Option<string>)
    requires Owners(db) && (role.Some? ==> GrantableRole(role.value))
    ensures Owners(WithMember(db, team, user, role).0)
  {
    var next := WithMember(db, team, user, role).0;
    if next != db {
      OtherRowChanged(db, next, Seat(team, user));
    }
  }

  lemma InvitedKeeps(db: Tables, enforced: bool, now: int, a: Action)
    requires a.CreateInvite?
    ensures Invited(db, enforced, now, a).0 == db.(invites := Invited(db, enforced, now, a).0.invites)
  {
  }

  lemma OwnersStep(db: Tables, enforced: bool, now: int, a: Action)
    requires Enabled(db, a) && Owned(db)
    ensures Owners(Handled(db, enforced, now, a).0)
  {
    var next := Handled(db, enforced, now, a).0;
    match a
    case CreateTeam(user, team) => OwnerOfNewTeam(db, user, team);
    case CreateInvite(_, _, _, _, _) =>
      InvitedKeeps(db, enforced, now, a);
      OwnersSame(db, next);
    case AcceptInvite(user, id) => RedeemedOwners(db, enforced, now, user, id);
    case ChangeRole(team, user, role) => if GrantableRole(role) { WithMemberOwners(db, team, user, Some(role)); }
    case RemoveMember(team, user) => WithMemberOwners(db, team, user, None);
    case RevokeInvite(_, _) => OwnersSame(db, next);
    case SetPlan(_, _) => OwnersSame(db, next);
    case SetEmail(_, _, _) => OwnersSame(db, next);
    case DeleteAccount(user, paying) => AccountOwners(db, user, paying);
    case _ =>
      SlotKeeps(db, enforced, a);
      OwnersSame(db, next);
  }

  /** In every run from tables that meet it, each team keeps exactly one owner row, equal to owner_id. */
  lemma {:induction false} OwnersKept(db: Tables, enforced: bool, run: seq<Request>)
    requires Owned(db) && Outcome(db, enforced, run).Some?
    ensures Owned(Outcome(db, enforced, run).value)
  {
    if run != [] {
      var init, r := run[..|run| - 1], run[|run| - 1];
      OwnersKept(db, enforced, init);
      SoundStep(Outcome(db, enforced, init).value, enforced, r.at, r.action);
      OwnersStep(Outcome(db, enforced, init).value, enforced, r.at, r.action);
    }
  }

  // ---------- Members ----------

  lemma MemberAdded(db: Tables, next: Tables, team: Id, seat: Seat)
    requires next.members.Keys == db.members.Keys + {seat} && seat !in db.members
    ensures MembersOf(next, team) == MembersOf(db, team) + if seat.team == team then {seat.user} else {}
    ensures |MembersOf(next, team)| == |MembersOf(db, team)| + if seat.team == team then 1 else 0
  {
    forall u ensures u in MembersOf(next, team) <==> u in MembersOf(db, team) || (seat.team == team && u == seat.user) {
      InMembers(db, team, u);
      InMembers(next, team, u);
    }
    InMembers(db, team, seat.user);
    assert MembersOf(next, team) == MembersOf(db, team) + if seat.team == team then {seat.user} else {};
  }

  lemma InMembers(db: Tables, team: Id, u: Id)
    ensures u in MembersOf(db, team) <==> Seat(team, u) in db.members
  {
    if Seat(team, u) in db.members {
      assert Seat(team, u).team == team;
    }
  }

  lemma FewerMembers(db: Tables, next: Tables, team: Id)
    requires next.members.Keys <= db.members.Keys
    ensures MembersOf(next, team) <= MembersOf(db, team)
    ensures |MembersOf(next, team)| <= |MembersOf(db, team)|
  {
    Smaller(MembersOf(next, team), MembersOf(db, team));
  }

  lemma Smaller<T>(a: set<T>, b: set<T>)
    requires a <= b
    ensures |a| <= |b|
  {
    assert b == a + (b - a);
  }

  lemma MembersStep(db: Tables, enforced: bool, now: int, a: Action, team: Id)
    requires Enabled(db, a) && enforced && Unpaid(db, team) && team in db.teams
    ensures |MembersOf(Handled(db, enforced, now, a).0, team)| <= Max(FREE_MAX_MEMBERS, |MembersOf(db, team)|)
  {
    var next := Handled(db, enforced, now, a).0;
    match a
    case CreateTeam(user, t) => assert MembersOf(next, team) == MembersOf(db, team);
    case AcceptInvite(user, id) => AcceptMembers(db, enforced, now, user, id, team);
    case _ => FewerMembers(db, next, team);
  }

  lemma AcceptMembers(db: Tables, enforced: bool, now: int, user: Id, id: Id, team: Id)
    requires user in db.emails && enforced && Unpaid(db, team)
    ensures |MembersOf(Redeemed(db, enforced, now, user, id).0, team)| <= Max(FREE_MAX_MEMBERS, |MembersOf(db, team)|)
  {
    var next := Redeemed(db, enforced, now, user, id).0;
    if next.members == db.members {
      FewerMembers(db, next, team);
    } else {
      var seat := Seat(db.invites[id].team, user);
      assert next == Join(db, id, user);
      MemberAdded(db, next, team, seat);
      assert !MembersFull(db, enforced, seat.team);
    }
  }

  // ---------- Projects ----------

  lemma ActiveAdded(db: Tables, next: Tables, team: Id, id: Id, p: Project)
    requires next.projects == db.projects[id := p] && (id in db.projects ==> db.projects[id].archived || p.archived)
    requires id in db.projects ==> db.projects[id].team == p.team
    ensures |ActiveOf(next, team)| <= |ActiveOf(db, team)| + if p.team == team && !p.archived then 1 else 0
  {
    var more: set<Id> := if p.team == team && !p.archived then {id} else {};
    Smaller(ActiveOf(next, team), ActiveOf(db, team) + more);
    Smaller(ActiveOf(db, team) * more, more);
  }

  lemma ActiveStep(db: Tables, enforced: bool, now: int, a: Action, team: Id)
    requires Enabled(db, a) && enforced && Unpaid(db, team)
    ensures |ActiveOf(Handled(db, enforced, now, a).0, team)| <= Max(FREE_MAX_PROJECTS, |ActiveOf(db, team)|)
  {
    var next := Handled(db, enforced, now, a).0;
    if next.projects == db.projects {
      assert ActiveOf(next, team) == ActiveOf(db, team);
    } else {
      match a
      case CreateProject(_, t, id) => ActiveAdded(db, next, team, id, Project(t, false));
      case UseTemplate(t, _, id) => ActiveAdded(db, next, team, id, Project(t.value, false));
      case Archive(id) => ActiveAdded(db, next, team, id, db.projects[id].(archived := true));
      case Unarchive(id) => ActiveAdded(db, next, team, id, db.projects[id].(archived := false));
      case DeleteProject(id) => Smaller(ActiveOf(next, team), ActiveOf(db, team));
      case DeleteAccount(_, _) => Smaller(ActiveOf(next, team), ActiveOf(db, team));
    }
  }

  // ---------- Seats, with pending invites ----------

  /** Accepted at the very instant it expires: no longer counted as a seat, not yet refused. */
  predicate AtExpiry(db: Tables, now: int, a: Action) {
    a.AcceptInvite? && a.id in db.invites && now == db.invites[a.id].expires
  }

  lemma ReservedSame(db: Tables, next: Tables, team: Id, now: int)
    requires next.invites == db.invites
    ensures ReservedOf(next, team, now) == ReservedOf(db, team, now)
  {
  }

  lemma ReservedAdded(db: Tables, next: Tables, team: Id, now: int, id: Id, inv: Invite)
    requires id !in db.invites && next.invites == db.invites[id := inv] && inv.status == Pending && now < inv.expires
    ensures |ReservedOf(next, team, now)| == |ReservedOf(db, team, now)| + if inv.team == team then 1 else 0
  {
    assert ReservedOf(next, team, now) == ReservedOf(db, team, now) + if inv.team == team then {id} else {};
  }

  lemma ReservedGone(db: Tables, next: Tables, team: Id, now: int, id: Id)
    requires id in db.invites && !IsPendingFor(next, team, id)
    requires forall i | i in next.invites && i != id :: i in db.invites && next.invites[i] == db.invites[i]
    requires forall i | i in db.invites && i != id :: i in next.invites
    ensures |ReservedOf(db, team, now)| ==
            |ReservedOf(next, team, now)| + if id in ReservedOf(db, team, now) then 1 else 0
  {
    var held := if id in ReservedOf(db, team, now) then {id} else {};
    assert ReservedOf(db, team, now) == ReservedOf(next, team, now) + held;
    assert id !in ReservedOf(next, team, now);
  }

  /** How accepting an invite changes the seats of its team: the new member takes one, the invite
      gives back the one it held, which it no longer holds at its expiry. */
  lemma AcceptedSeats(db: Tables, enforced: bool, now: int, user: Id, id: Id)
    requires Enabled(db, AcceptInvite(user, id))
    requires Handled(db, enforced, now, AcceptInvite(user, id)).1 == Done
    ensures var inv := db.invites[id];
      SeatsOf(Handled(db, enforced, now, AcceptInvite(user, id)).0, inv.team, now) ==
      SeatsOf(db, inv.team, now) +
        (if Seat(inv.team, user) in db.members then 0 else 1) - (if now < inv.expires then 1 else 0)
  {
    var next, inv := Handled(db, enforced, now, AcceptInvite(user, id)).0, db.invites[id];
    ReservedGone(db, next, inv.team, now, id);
    if Seat(inv.team, user) in db.members {
      assert MembersOf(next, inv.team) == MembersOf(db, inv.team);
    } else {
      MemberAdded(db, next, inv.team, Seat(inv.team, user));
    }
  }

  lemma AcceptStep(db: Tables, enforced: bool, now: int, user: Id, id: Id, team: Id)
    requires Enabled(db, AcceptInvite(user, id)) && !AtExpiry(db, now, AcceptInvite(user, id))
    ensures SeatsOf(Handled(db, enforced, now, AcceptInvite(user, id)).0, team, now) <= SeatsOf(db, team, now)
  {
    var handled := Handled(db, enforced, now, AcceptInvite(user, id));
    var next, r := handled.0, handled.1;
    if r == Done && db.invites[id].team == team {
      AcceptedSeats(db, enforced, now, user, id);
    } else if next != db {
      ReservedGone(db, next, team, now, id);
      if Seat(db.invites[id].team, user) in next.members && Seat(db.invites[id].team, user) !in db.members {
        MemberAdded(db, next, team, Seat(db.invites[id].team, user));
      } else {
        FewerMembers(db, next, team);
      }
    }
  }

  lemma TeamStep(db: Tables, enforced: bool, now: int, user: Id, t: Id, team: Id)
    requires Enabled(db, CreateTeam(user, t)) && team in db.teams
    ensures SeatsOf(Handled(db, enforced, now, CreateTeam(user, t)).0, team, now) == SeatsOf(db, team, now)
  {
    var next := Handled(db, enforced, now, CreateTeam(user, t)).0;
    ReservedSame(db, next, team, now);
    assert MembersOf(next, team) == MembersOf(db, team);
  }

  lemma InviteStep(db: Tables, enforced: bool, now: int, a: Action, team: Id)
    requires a.CreateInvite? && Enabled(db, a) && enforced && Unpaid(db, team)
    ensures SeatsOf(Handled(db, enforced, now, a).0, team, now) <= Max(FREE_MAX_MEMBERS, SeatsOf(db, team, now))
  {
    var next := Handled(db, enforced, now, a).0;
    assert MembersOf(next, team) == MembersOf(db, team);
    if next != db {
      ReservedAdded(db, next, team, now, a.id, next.invites[a.id]);
    }
  }

  lemma RevokeStep(db: Tables, enforced: bool, now: int, t: Id, id: Id, team: Id)
    ensures SeatsOf(Handled(db, enforced, now, RevokeInvite(t, id)).0, team, now) <= SeatsOf(db, team, now)
  {
    var next := Handled(db, enforced, now, RevokeInvite(t, id)).0;
    assert MembersOf(next, team) == MembersOf(db, team);
    if next != db {
      ReservedGone(db, next, team, now, id);
    }
  }

  lemma OtherStep(db: Tables, enforced: bool, now: int, a: Action, team: Id)
    requires Enabled(db, a) && !a.CreateTeam? && !a.CreateInvite? && !a.RevokeInvite? && !a.AcceptInvite?
    requires !a.DeleteAccount?
    ensures SeatsOf(Handled(db, enforced, now, a).0, team, now) <= SeatsOf(db, team, now)
  {
    var next := Handled(db, enforced, now, a).0;
    ReservedSame(db, next, team, now);
    FewerMembers(db, next, team);
  }

  lemma AccountStep(db: Tables, now: int, user: Id, paying: bool, team: Id)
    ensures SeatsOf(WithoutAccount(db, user, paying).0, team, now) <= SeatsOf(db, team, now)
  {
    var next := WithoutAccount(db, user, paying).0;
    FewerMembers(db, next, team);
    Smaller(ReservedOf(next, team, now), ReservedOf(db, team, now));
  }

  lemma SeatsStep(db: Tables, enforced: bool, now: int, a: Action, team: Id)
    requires Enabled(db, a) && enforced && Unpaid(db, team) && team in db.teams && !AtExpiry(db, now, a)
    ensures SeatsOf(Handled(db, enforced, now, a).0, team, now) <= Max(FREE_MAX_MEMBERS, SeatsOf(db, team, now))
  {
    match a
    case CreateTeam(user, t) => TeamStep(db, enforced, now, user, t, team);
    case CreateInvite(_, _, _, _, _) => InviteStep(db, enforced, now, a, team);
    case RevokeInvite(t, id) => RevokeStep(db, enforced, now, t, id, team);
    case AcceptInvite(user, id) => AcceptStep(db, enforced, now, user, id, team);
    case DeleteAccount(user, paying) => AccountStep(db, now, user, paying, team);
    case _ => OtherStep(db, enforced, now, a, team);
  }

  /** An accept that will take a new seat without giving one back: everything the handler asks of it holds
      at the invite's expiry. */
  predicate SeatsAtExpiry(db: Tables, now: int, a: Action, team: Id) {
    && AtExpiry(db, now, a)
    && var inv := db.invites[a.id];
    && inv.team == team && inv.status == Pending
    && a.user in db.emails && Addressed(db, a.id, a.user)
    && Seat(team, a.user) !in db.members
    && |MembersOf(db, team)| < FREE_MAX_MEMBERS
  }

  /** From a team within its seats, one request can take it over the limit exactly when it is the addressee's
      accept of a pending invite at its expiry, every seat is taken, and pending invites hold some of them. */
  lemma SeatsExceededExactlyWhen(db: Tables, enforced: bool, now: int, a: Action, team: Id)
    requires Enabled(db, a) && enforced && Unpaid(db, team) && team in db.teams
    requires SeatsOf(db, team, now) <= FREE_MAX_MEMBERS
    ensures SeatsOf(Handled(db, enforced, now, a).0, team, now) > FREE_MAX_MEMBERS <==>
            SeatsAtExpiry(db, now, a, team) && SeatsOf(db, team, now) == FREE_MAX_MEMBERS
  {
    if !AtExpiry(db, now, a) {
      SeatsStep(db, enforced, now, a, team);
    } else if db.invites[a.id].team == team {
      AcceptAtExpiry(db, enforced, now, a.user, a.id);
    } else {
      var next := Handled(db, enforced, now, a).0;
      FewerInTeam(db, next, team);
      Smaller(ReservedOf(next, team, now), ReservedOf(db, team, now));
    }
  }

  lemma AcceptAtExpiry(db: Tables, enforced: bool, now: int, user: Id, id: Id)
    requires enforced && user in db.emails && id in db.invites && now == db.invites[id].expires
    requires Unpaid(db, db.invites[id].team)
    ensures var team := db.invites[id].team;
      SeatsOf(Handled(db, enforced, now, AcceptInvite(user, id)).0, team, now) ==
      SeatsOf(db, team, now) + if SeatsAtExpiry(db, now, AcceptInvite(user, id), team) then 1 else 0
  {
    var (next, r) := Handled(db, enforced, now, AcceptInvite(user, id));
    if r == Done {
      AcceptedSeats(db, enforced, now, user, id);
    } else {
      assert next == db;
    }
  }

  lemma FewerInTeam(db: Tables, next: Tables, team: Id)
    requires forall k | k in next.members && k.team == team :: k in db.members
    ensures |MembersOf(next, team)| <= |MembersOf(db, team)|
  {
    Smaller(MembersOf(next, team), MembersOf(db, team));
  }

  lemma TimePasses(db: Tables, team: Id, now: int, later: int)
    requires now <= later
    ensures SeatsOf(db, team, later) <= SeatsOf(db, team, now)
  {
    Smaller(ReservedOf(db, team, later), ReservedOf(db, team, now));
  }

  // ---------- Whole runs ----------

  /** The team exists and is on no paid plan before every request of the run. */
  ghost predicate FreeThroughout(db: Tables, run: seq<Request>, team: Id) {
    forall k | 0 <= k < |run| :: Outcome(db, true, run[..k]).Some?
      && team in Outcome(db, true, run[..k]).value.teams && Unpaid(Outcome(db, true, run[..k]).value, team)
  }

  lemma FreeBefore(db: Tables, run: seq<Request>, team: Id)
    requires run != [] && FreeThroughout(db, run, team)
    ensures FreeThroughout(db, run[..|run| - 1], team)
  {
    var init := run[..|run| - 1];
    forall k | 0 <= k < |init| ensures init[..k] == run[..k] {
    }
  }

  /** While a team is on the free plan its members and active projects never pass the limit, or what
      it already had: a downgraded team keeps everything and never grows. */
  lemma {:induction false} FreeTeamsStayInLimits(db: Tables, run: seq<Request>, team: Id)
    requires Outcome(db, true, run).Some? && FreeThroughout(db, run, team)
    ensures var after := Outcome(db, true, run).value;
      && |MembersOf(after, team)| <= Max(FREE_MAX_MEMBERS, |MembersOf(db, team)|)
      && |ActiveOf(after, team)| <= Max(FREE_MAX_PROJECTS, |ActiveOf(db, team)|)
  {
    if run != [] {
      var init, r := run[..|run| - 1], run[|run| - 1];
      FreeBefore(db, run, team);
      FreeTeamsStayInLimits(db, init, team);
      var before := Outcome(db, true, init).value;
      MembersStep(before, true, r.at, r.action, team);
      ActiveStep(before, true, r.at, r.action, team);
    }
  }

  ghost predicate InOrder(start: int, run: seq<Request>) {
    && (forall k | 0 <= k < |run| :: start <= run[k].at)
    && (forall i, j | 0 <= i < j < |run| :: run[i].at <= run[j].at)
  }

  ghost predicate NoneAtExpiry(db: Tables, run: seq<Request>) {
    forall k | 0 <= k < |run| && Outcome(db, true, run[..k]).Some? ::
      !AtExpiry(Outcome(db, true, run[..k]).value, run[k].at, run[k].action)
  }

  /** As long as no invite is accepted at its expiry, members and unexpired pending invites together
      stay within the limit, or within what there already was. */
  lemma {:induction false} SeatsStayInLimits(db: Tables, run: seq<Request>, team: Id, start: int, now: int)
    requires Outcome(db, true, run).Some? && FreeThroughout(db, run, team)
    requires InOrder(start, run) && NoneAtExpiry(db, run)
    requires start <= now && (run != [] ==> run[|run| - 1].at <= now)
    ensures SeatsOf(Outcome(db, true, run).value, team, now) <= Max(FREE_MAX_MEMBERS, SeatsOf(db, team, start))
    decreases |run|
  {
    if run == [] {
      TimePasses(db, team, start, now);
    } else {
      var init, r := run[..|run| - 1], run[|run| - 1];
      FreeBefore(db, run, team);
      forall k | 0 <= k < |init| ensures init[..k] == run[..k] {
      }
      SeatsStayInLimits(db, init, team, start, r.at);
      SeatsStep(Outcome(db, true, init).value, true, r.at, r.action, team);
      TimePasses(Outcome(db, true, run).value, team, r.at, now);
    }
  }
}
