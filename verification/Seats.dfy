/** Seats and project slots of teams: the handlers that hand them out, over the tables they share. */
module Seats {
  import opened Common
  import opened Text

  type Id = string
  datatype Seat = Seat(team: Id, user: Id)
  datatype Team = Team(owner: Id, plan: string)
  datatype InviteStatus = Pending | Accepted | Expired
  datatype Invite = Invite(team: Id, sender: Id, email: string, role: string, status: InviteStatus, expires: int)
  datatype Project = Project(team: Id, archived: bool)

  /** UNIQUE(team_id, user_id) makes the seat the key of team_members. */
  datatype Tables = Tables(teams: map<Id, Team>, members: map<Seat, string>, invites: map<Id, Invite>,
                           projects: map<Id, Project>, emails: map<Id, string>, verified: set<Id>)

  datatype Response = Done | Unchanged | BadRequest | NotFound | Conflict | Forbidden | Gone | PlanLimit

  const FREE_MAX_MEMBERS := 3
  const FREE_MAX_PROJECTS := 3
  const INVITE_LIFETIME := 7 * 24 * 60 * 60

  // ---------- Counting ----------

  function MembersOf(db: Tables, team: Id): set<Id> {
    set k | k in db.members && k.team == team :: k.user
  }

  predicate IsPendingFor(db: Tables, team: Id, i: Id) {
    i in db.invites && db.invites[i].team == team && db.invites[i].status == Pending
  }

  /** Pending invites that hold a seat at `now`. */
  function ReservedOf(db: Tables, team: Id, now: int): set<Id> {
    set i | i in db.invites && IsPendingFor(db, team, i) && now < db.invites[i].expires
  }

  function SeatsOf(db: Tables, team: Id, now: int): nat {
    |MembersOf(db, team)| + |ReservedOf(db, team, now)|
  }

  function ActiveOf(db: Tables, team: Id): set<Id> {
    set p | p in db.projects && db.projects[p].team == team && !db.projects[p].archived
  }

  predicate Unpaid(db: Tables, team: Id) {
    team in db.teams ==> db.teams[team].plan != "PRO" && db.teams[team].plan != "ENTERPRISE"
  }

  predicate MembersFull(db: Tables, enforced: bool, team: Id) {
    enforced && Unpaid(db, team) && |MembersOf(db, team)| >= FREE_MAX_MEMBERS
  }

  predicate SeatsFull(db: Tables, enforced: bool, team: Id, now: int) {
    enforced && Unpaid(db, team) && SeatsOf(db, team, now) >= FREE_MAX_MEMBERS
  }

  predicate ProjectsFull(db: Tables, enforced: bool, team: Id) {
    enforced && Unpaid(db, team) && |ActiveOf(db, team)| >= FREE_MAX_PROJECTS
  }

  // ---------- Handlers as steps over the tables ----------

  datatype Action =
    | CreateTeam(user: Id, team: Id)
    | CreateInvite(sender: Id, team: Id, email: string, role: string, id: Id)
    | RevokeInvite(team: Id, id: Id)
    | AcceptInvite(user: Id, id: Id)
    | ChangeRole(team: Id, user: Id, role: string)
    | RemoveMember(team: Id, user: Id)
    | CreateProject(user: Id, team: Id, id: Id)
    | UseTemplate(personal: Option<Id>, tierOpen: bool, id: Id)
    | Archive(id: Id)
    | Unarchive(id: Id)
    | DeleteProject(id: Id)
    | SetPlan(team: Id, plan: string)
    | SetEmail(user: Id, email: string, proven: bool)
    | DeleteAccount(user: Id, paying: bool)

  predicate GrantableRole(role: string) {
    role == "ADMIN" || role == "MEMBER"
  }

  predicate HasMemberWithEmail(db: Tables, team: Id, email: string) {
    exists u | u in db.emails :: db.emails[u] == email && Seat(team, u) in db.members
  }

  predicate HasInviteTo(db: Tables, team: Id, email: string) {
    exists i | i in db.invites :: IsPendingFor(db, team, i) && db.invites[i].email == email
  }

  function Join(db: Tables, id: Id, user: Id): Tables
    requires id in db.invites
  {
    var inv := db.invites[id];
    var seat := Seat(inv.team, user);
    db.(members := if seat in db.members then db.members else db.members[seat := inv.role],
        invites := db.invites[id := inv.(status := Accepted)],
        verified := db.verified + {user})
  }

  /** Addresses are stored trimmed and in lower case. */
  function Normal(email: string): string {
    Lower(Trim(email))
  }

  function Invited(db: Tables, enforced: bool, now: int, a: Action): (Tables, Response)
    requires a.CreateInvite?
  {
    var email := Normal(a.email);
    if email == "" || !GrantableRole(a.role) then (db, BadRequest)
    else if a.team !in db.teams then (db, NotFound)
    else if HasMemberWithEmail(db, a.team, email) || HasInviteTo(db, a.team, email) then (db, Conflict)
    else if SeatsFull(db, enforced, a.team, now) then (db, PlanLimit)
    else
      var invite := Invite(a.team, a.sender, email, a.role, Pending, now + INVITE_LIFETIME);
      (db.(invites := db.invites[a.id := invite]), Done)
  }

  /** The account is on the address that was invited, letter case aside. */
  predicate Addressed(db: Tables, id: Id, user: Id)
    requires id in db.invites && user in db.emails
  {
    Lower(db.invites[id].email) == Lower(db.emails[user])
  }

  function Redeemed(db: Tables, enforced: bool, now: int, user: Id, id: Id): (Tables, Response)
    requires user in db.emails
  {
    if id !in db.invites then (db, NotFound)
    else
      var inv := db.invites[id];
      var member := Seat(inv.team, user) in db.members;
      if !Addressed(db, id, user) then (db, Forbidden)
      else if inv.status == Accepted && member then (db, Unchanged)
      else if inv.status != Pending then (db, Gone)
      else if now > inv.expires then (db.(invites := db.invites[id := inv.(status := Expired)]), Gone)
      else if !member && MembersFull(db, enforced, inv.team) then (db, PlanLimit)
      else (Join(db, id, user), Done)
  }

  function WithMember(db: Tables, team: Id, user: Id, role: Option<string>): (Tables, Response) {
    if team !in db.teams then (db, NotFound)
    else if db.teams[team].owner == user then (db, BadRequest)
    else if Seat(team, user) !in db.members then (db, NotFound)
    else if role.Some? then (db.(members := db.members[Seat(team, user) := role.value]), Done)
    else (db.(members := db.members - {Seat(team, user)}), Done)
  }

  function OwnedBy(db: Tables, user: Id): set<Id> {
    set t | t in db.teams && db.teams[t].owner == user
  }

  /** Refused while an owned team has other members or pays; then the owned teams go, and the user's own rows. */
  function WithoutAccount(db: Tables, user: Id, paying: bool): (Tables, Response) {
    var owned := OwnedBy(db, user);
    if paying || exists k | k in db.members :: k.team in owned && k.user != user then (db, Conflict)
    else
      (Tables(
         teams := db.teams - owned,
         members := map k | k in db.members && k.team !in owned && k.user != user :: db.members[k],
         invites := map i | i in db.invites && db.invites[i].team !in owned && db.invites[i].sender != user
                      :: db.invites[i],
         projects := map p | p in db.projects && db.projects[p].team !in owned :: db.projects[p],
         emails := db.emails - {user},
         verified := db.verified - {user}), Done)
  }

  function Occupied(db: Tables, enforced: bool, team: Id, id: Id): (Tables, Response) {
    if ProjectsFull(db, enforced, team) then (db, PlanLimit)
    else (db.(projects := db.projects[id := Project(team, false)]), Done)
  }

  function SlotStep(db: Tables, enforced: bool, a: Action): (Tables, Response)
    requires a.CreateProject? || a.UseTemplate? || a.Archive? || a.Unarchive? || a.DeleteProject?
  {
    match a
    case CreateProject(user, team, id) =>
      if Seat(team, user) !in db.members then (db, Forbidden) else Occupied(db, enforced, team, id)
    case UseTemplate(team, tierOpen, id) =>
      if team.None? then (db, NotFound)
      else if !tierOpen then (db, PlanLimit)
      else Occupied(db, enforced, team.value, id)
    case Archive(id) =>
      if id !in db.projects || db.projects[id].archived then (db, NotFound)
      else (db.(projects := db.projects[id := db.projects[id].(archived := true)]), Done)
    case Unarchive(id) =>
      if id !in db.projects then (db, NotFound)
      else if ProjectsFull(db, enforced, db.projects[id].team) then (db, PlanLimit)
      else if !db.projects[id].archived then (db, NotFound)
      else (db.(projects := db.projects[id := db.projects[id].(archived := false)]), Done)
    case DeleteProject(id) => (db.(projects := db.projects - {id}), Done)
  }

  /** Generated ids are new, and callers are signed in. */
  predicate Enabled(db: Tables, a: Action) {
    match a
    case CreateTeam(_, team) => team !in db.teams
    case CreateInvite(_, _, _, _, id) => id !in db.invites
    case CreateProject(_, _, id) => id !in db.projects
    case UseTemplate(_, _, id) => id !in db.projects
    case AcceptInvite(user, _) => user in db.emails
    case _ => true
  }

  function Handled(db: Tables, enforced: bool, now: int, a: Action): (Tables, Response)
    requires Enabled(db, a)
  {
    match a
    case CreateTeam(user, team) =>
      (db.(teams := db.teams[team := Team(user, "FREE")], members := db.members[Seat(team, user) := "OWNER"]), Done)
    case CreateInvite(_, _, _, _, _) => Invited(db, enforced, now, a)
    case RevokeInvite(team, id) =>
      if IsPendingFor(db, team, id) then (db.(invites := db.invites - {id}), Done) else (db, NotFound)
    case AcceptInvite(user, id) => Redeemed(db, enforced, now, user, id)
    case ChangeRole(team, user, role) =>
      if !GrantableRole(role) then (db, BadRequest) else WithMember(db, team, user, Some(role))
    case RemoveMember(team, user) => WithMember(db, team, user, None)
    case SetPlan(team, plan) =>
      if team in db.teams then (db.(teams := db.teams[team := db.teams[team].(plan := plan)]), Done) else (db, NotFound)
    case SetEmail(user, email, proven) =>
      (db.(emails := db.emails[user := email],
           verified := if proven then db.verified + {user} else db.verified - {user}), Done)
    case DeleteAccount(user, paying) => WithoutAccount(db, user, paying)
    case _ => SlotStep(db, enforced, a)
  }

  // ---------- The handlers ----------

  function Unexpired(invites: map<Id, Invite>, rows: set<Id>, now: int): set<Id>
    requires rows <= invites.Keys
  {
    set i | i in rows && now < invites[i].expires
  }

  lemma OneRowLess(invites: map<Id, Invite>, rows: set<Id>, now: int, i: Id)
    requires rows <= invites.Keys && i in rows
    ensures |Unexpired(invites, rows, now)| ==
            |Unexpired(invites, rows - {i}, now)| + if now < invites[i].expires then 1 else 0
  {
    var less := Unexpired(invites, rows - {i}, now);
    assert Unexpired(invites, rows, now) == less + if now < invites[i].expires then {i} else {};
  }

  method CountUnexpired(invites: map<Id, Invite>, rows: set<Id>, now: int) returns (n: nat)
    requires rows <= invites.Keys
    ensures n == |Unexpired(invites, rows, now)|
  {
    n := 0;
    var todo := rows;
    while todo != {}
      invariant todo <= rows && n + |Unexpired(invites, todo, now)| == |Unexpired(invites, rows, now)|
      decreases |todo|
    {
      var i :| i in todo;
      OneRowLess(invites, todo, now, i);
      todo := todo - {i};
      if now < invites[i].expires {
        n := n + 1;
      }
    }
  }

  class Store {
    var teams: map<Id, Team>
    var members: map<Seat, string>
    var invites: map<Id, Invite>
    var projects: map<Id, Project>
    var emails: map<Id, string>
    var verified: set<Id>
    const enforced: bool

    constructor (enforced: bool)
      ensures this.enforced == enforced && Db() == Tables(map[], map[], map[], map[], map[], {})
    {
      this.enforced := enforced;
      teams, members, invites, projects, emails, verified := map[], map[], map[], map[], map[], {};
    }

    ghost function Db(): Tables
      reads this
    {
      Tables(teams, members, invites, projects, emails, verified)
    }

    method TeamMemberCount(team: Id, includePending: bool, now: int) returns (n: nat)
      ensures n == if includePending then SeatsOf(Db(), team, now) else |MembersOf(Db(), team)|
    {
      n := |(set k | k in members && k.team == team :: k.user)|;
      assert n == |MembersOf(Db(), team)|;
      if !includePending {
        return;
      }
      var rows := set i | i in invites && invites[i].team == team && invites[i].status == Pending;
      assert Unexpired(invites, rows, now) == ReservedOf(Db(), team, now);
      var reserved := CountUnexpired(invites, rows, now);
      n := n + reserved;
    }

    method PlanIsPaid(team: Id) returns (paid: bool)
      ensures paid == !Unpaid(Db(), team)
    {
      var plan := if team in teams then teams[team].plan else "FREE";
      paid := plan == "PRO" || plan == "ENTERPRISE";
    }

    method MemberLimitReached(team: Id, includePending: bool, now: int) returns (full: bool)
      ensures full == if includePending then SeatsFull(Db(), enforced, team, now) else MembersFull(Db(), enforced, team)
    {
      var paid := PlanIsPaid(team);
      if !enforced || paid {
        return false;
      }
      var n := TeamMemberCount(team, includePending, now);
      full := n >= FREE_MAX_MEMBERS;
    }

    method ProjectLimitReached(team: Id) returns (full: bool)
      ensures full == ProjectsFull(Db(), enforced, team)
    {
      var paid := PlanIsPaid(team);
      if !enforced || paid {
        return false;
      }
      full := |(set p | p in projects && projects[p].team == team && !projects[p].archived)| >= FREE_MAX_PROJECTS;
      assert (set p | p in projects && projects[p].team == team && !projects[p].archived) == ActiveOf(Db(), team);
    }

    method HandleCreateTeam(user: Id, team: Id) returns (r: Response)
      requires Enabled(Db(), CreateTeam(user, team))
      modifies this
      ensures (Db(), r) == Handled(old(Db()), enforced, 0, CreateTeam(user, team))
    {
      teams := teams[team := Team(user, "FREE")];
      members := members[Seat(team, user) := "OWNER"];
      r := Done;
    }

    method HandleCreateInvite(sender: Id, team: Id, email: string, role: string, id: Id, now: int) returns (r: Response)
      requires Enabled(Db(), CreateInvite(sender, team, email, role, id))
      modifies this
      ensures (Db(), r) == Handled(old(Db()), enforced, now, CreateInvite(sender, team, email, role, id))
    {
      var address := Lower(Trim(email));
      if address == "" || (role != "ADMIN" && role != "MEMBER") {
        return BadRequest;
      }
      if team !in teams {
        return NotFound;
      }
      if exists u | u in emails :: emails[u] == address && Seat(team, u) in members {
        return Conflict;
      }
      if exists i | i in invites ::
        invites[i].team == team && invites[i].status == Pending && invites[i].email == address
      {
        assert HasInviteTo(Db(), team, address);
        return Conflict;
      }
      assert !HasInviteTo(Db(), team, address);
      var full := MemberLimitReached(team, true, now);
      if full {
        return PlanLimit;
      }
      invites := invites[id := Invite(team, sender, address, role, Pending, now + INVITE_LIFETIME)];
      r := Done;
    }

    method HandleRevokeInvite(team: Id, id: Id) returns (r: Response)
      modifies this
      ensures (Db(), r) == Handled(old(Db()), enforced, 0, RevokeInvite(team, id))
    {
      if id in invites && invites[id].team == team && invites[id].status == Pending {
        invites := invites - {id};
        return Done;
      }
      r := NotFound;
    }

    method HandleAcceptInvite(user: Id, id: Id, now: int) returns (r: Response)
      requires Enabled(Db(), AcceptInvite(user, id))
      modifies this
      ensures (Db(), r) == Handled(old(Db()), enforced, now, AcceptInvite(user, id))
    {
      if id !in invites {
        return NotFound;
      }
      var inv := invites[id];
      if Lower(inv.email) != Lower(emails[user]) {
        return Forbidden;
      }
      var member := Seat(inv.team, user) in members;
      if inv.status == Accepted && member {
        return Unchanged;
      }
      if inv.status != Pending {
        return Gone;
      }
      if now > inv.expires {
        invites := invites[id := inv.(status := Expired)];
        return Gone;
      }
      if !member {
        var full := MemberLimitReached(inv.team, false, now);
        if full {
          return PlanLimit;
        }
        members := members[Seat(inv.team, user) := inv.role];
      }
      invites := invites[id := inv.(status := Accepted)];
      if user !in verified {
        verified := verified + {user};
      }
      assert verified == old(verified) + {user};
      r := Done;
    }

    method HandleUpdateRole(team: Id, user: Id, role: string) returns (r: Response)
      modifies this
      ensures (Db(), r) == Handled(old(Db()), enforced, 0, ChangeRole(team, user, role))
    {
      if role != "ADMIN" && role != "MEMBER" {
        return BadRequest;
      }
      if team !in teams {
        return NotFound;
      }
      if teams[team].owner == user {
        return BadRequest;
      }
      if Seat(team, user) !in members {
        return NotFound;
      }
      members := members[Seat(team, user) := role];
      r := Done;
    }

    method HandleRemoveMember(team: Id, user: Id) returns (r: Response)
      modifies this
      ensures (Db(), r) == Handled(old(Db()), enforced, 0, RemoveMember(team, user))
    {
      if team !in teams {
        return NotFound;
      }
      if teams[team].owner == user {
        return BadRequest;
      }
      if Seat(team, user) !in members {
        return NotFound;
      }
      members := members - {Seat(team, user)};
      r := Done;
    }

    method HandleCreateProject(user: Id, team: Id, id: Id) returns (r: Response)
      requires Enabled(Db(), CreateProject(user, team, id))
      modifies this
      ensures (Db(), r) == Handled(old(Db()), enforced, 0, CreateProject(user, team, id))
    {
      if Seat(team, user) !in members {
        return Forbidden;
      }
      var full := ProjectLimitReached(team);
      if full {
        return PlanLimit;
      }
      projects := projects[id := Project(team, false)];
      r := Done;
    }

    method HandleUseTemplate(team: Option<Id>, tierOpen: bool, id: Id) returns (r: Response)
      requires Enabled(Db(), UseTemplate(team, tierOpen, id))
      modifies this
      ensures (Db(), r) == Handled(old(Db()), enforced, 0, UseTemplate(team, tierOpen, id))
    {
      if team.None? {
        return NotFound;
      }
      if !tierOpen {
        return PlanLimit;
      }
      var full := ProjectLimitReached(team.value);
      if full {
        return PlanLimit;
      }
      projects := projects[id := Project(team.value, false)];
      r := Done;
    }

    method HandleArchive(id: Id) returns (r: Response)
      modifies this
      ensures (Db(), r) == Handled(old(Db()), enforced, 0, Archive(id))
    {
      if id in projects && !projects[id].archived {
        projects := projects[id := projects[id].(archived := true)];
        return Done;
      }
      r := NotFound;
    }

    method HandleUnarchive(id: Id) returns (r: Response)
      modifies this
      ensures (Db(), r) == Handled(old(Db()), enforced, 0, Unarchive(id))
    {
      if id in projects {
        var full := ProjectLimitReached(projects[id].team);
        if full {
          return PlanLimit;
        }
      }
      if id in projects && projects[id].archived {
        projects := projects[id := projects[id].(archived := false)];
        return Done;
      }
      r := NotFound;
    }
  }
}
