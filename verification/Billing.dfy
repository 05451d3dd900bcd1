/** The billing webhook: which team an event is about, what it changes, and the ledger of events. */
module Billing {
  import opened Common
  import opened Text

  import AccountDelete

  type Id = string

  /** `provider` is "" until a billing event touches the team; `subscription` is "" when there is none. */
  datatype Team = Team(plan: string, provider: string, customer: string, subscription: string, status: string,
                       seats: Option<nat>, periodEnd: Option<int>)
  type Teams = map<Id, Team>

  datatype Event = Event(id: Id, subscriptionEvent: bool, team: string, customer: string, subscription: string,
                         status: string, seats: nat, periodEnd: Option<int>)

  /** How far a delivery gets: a failed UPDATE answers 500, a failed ledger INSERT is only logged. */
  datatype Delivery = Completed | UpdateFails | LedgerFails

  datatype Reply = Received | ServerError

  datatype Database = Database(teams: Teams, ledger: set<Id>)

  const NEW_TEAM := Team("FREE", "", "", "", "", None, None)

  predicate GrantsProAccess(status: string) {
    status == "active" || status == "trialing"
  }

  predicate Live(t: Team) {
    t.subscription != "" && GrantsProAccess(t.status)
  }

  /** What the query by subscription id may return. */
  predicate Found(teams: Teams, subscription: string, owner: Option<Id>) {
    if owner.Some? then owner.value in teams && teams[owner.value].subscription == subscription
    else forall t | t in teams :: teams[t].subscription != subscription
  }

  function Resolve(teams: Teams, ev: Event, owner: Option<Id>): (r: Option<Id>)
    requires ev.subscription != "" ==> Found(teams, ev.subscription, owner)
    ensures r.Some? ==> r.value in teams
  {
    if ev.subscription != "" && owner.Some? then owner
    else if ev.team != "" && ev.team in teams
      && !(Live(teams[ev.team]) && teams[ev.team].subscription != ev.subscription)
    then Some(ev.team)
    else None
  }

  function Applied(ev: Event): Team {
    Team(if GrantsProAccess(ev.status) then "PRO" else "FREE", "paddle", ev.customer, ev.subscription, ev.status,
         if ev.seats > 0 then Some(ev.seats) else None, ev.periodEnd)
  }

  /** The team that a delivery is to change, if any. */
  function Target(db: Database, ev: Event, owner: Option<Id>): Option<Id>
    requires ev.subscription != "" ==> Found(db.teams, ev.subscription, owner)
  {
    if ev.id in db.ledger || !ev.subscriptionEvent then None else Resolve(db.teams, ev, owner)
  }

  function Handled(db: Database, ev: Event, owner: Option<Id>, d: Delivery): (Database, Reply)
    requires ev.subscription != "" ==> Found(db.teams, ev.subscription, owner)
  {
    var target := Target(db, ev, owner);
    if ev.id in db.ledger || (ev.subscriptionEvent && target.None?) then (db, Received)
    else if target.Some? && d == UpdateFails then (db, ServerError)
    else
      (Database(if target.Some? then db.teams[target.value := Applied(ev)] else db.teams,
                if d == LedgerFails then db.ledger else db.ledger + {ev.id}), Received)
  }

  class Store {
    var teams: Teams
    var ledger: set<Id>

    ghost function Db(): Database
      reads this
    {
      Database(teams, ledger)
    }

    constructor ()
      ensures Db() == Database(map[], {})
    {
      teams, ledger := map[], {};
    }

    method ResolveTeam(ev: Event) returns (owner: Option<Id>, team: Option<Id>)
      ensures ev.subscription != "" ==> Found(teams, ev.subscription, owner)
      ensures team == Resolve(teams, ev, owner)
    {
      owner := None;
      if ev.subscription != "" {
        if t :| t in teams && teams[t].subscription == ev.subscription {
          return Some(t), Some(t);
        }
      }
      if ev.team != "" && ev.team in teams {
        var row := teams[ev.team];
        if row.subscription != "" && row.subscription != ev.subscription && GrantsProAccess(row.status) {
          return owner, None;
        }
        return owner, Some(ev.team);
      }
      team := None;
    }

    method HandleWebhook(ev: Event, d: Delivery) returns (owner: Option<Id>, reply: Reply)
      modifies this
      ensures ev.subscription != "" ==> Found(old(teams), ev.subscription, owner)
      ensures (Db(), reply) == Handled(old(Db()), ev, owner, d)
    {
      var team: Option<Id>;
      owner, team := ResolveTeam(ev);
      if ev.id in ledger {
        return owner, Received;
      }
      if ev.subscriptionEvent {
        if team.None? {
          return owner, Received;
        }
        var plan := "FREE";
        if GrantsProAccess(ev.status) {
          plan := "PRO";
        }
        if d == UpdateFails {
          return owner, ServerError;
        }
        teams := teams[team.value := Team(plan, "paddle", ev.customer, ev.subscription, ev.status,
                                          if ev.seats > 0 then Some(ev.seats) else None, ev.periodEnd)];
      }
      if d != LedgerFails {
        ledger := ledger + {ev.id};
      }
      reply := Received;
    }
  }

  // ---------- Runs ----------

  datatype Step =
    | NewTeam(id: Id)
    | RemoveTeam(id: Id)
    | Deliver(ev: Event, owner: Option<Id>, delivery: Delivery)
    | SyncSeats(team: Id, members: nat)

  /** Deleting the owner's account removes the team, unless its subscription keeps the account. */
  predicate Removable(t: Team) {
    t.subscription == "" || !AccountDelete.IsLiveStatus(t.status)
  }

  ghost predicate Enabled(db: Database, s: Step) {
    match s
    case NewTeam(id) => id !in db.teams && id != ""
    case RemoveTeam(id) => id in db.teams && Removable(db.teams[id])
    case Deliver(ev, owner, _) => ev.subscription != "" ==> Found(db.teams, ev.subscription, owner)
    case SyncSeats(team, _) => team in db.teams
  }

  function Next(db: Database, s: Step): Database
    requires Enabled(db, s)
  {
    match s
    case NewTeam(id) => db.(teams := db.teams[id := NEW_TEAM])
    case RemoveTeam(id) => db.(teams := db.teams - {id})
    case Deliver(ev, owner, d) => Handled(db, ev, owner, d).0
    case SyncSeats(team, n) => db.(teams := db.teams[team := db.teams[team].(seats := Some(n))])
  }

  ghost function Outcome(db: Database, run: seq<Step>): Option<Database> {
    if run == [] then Some(db)
    else
      var before := Outcome(db, run[..|run| - 1]);
      if before.Some? && Enabled(before.value, run[|run| - 1]) then Some(Next(before.value, run[|run| - 1])) else None
  }

  // ---------- What every run keeps ----------

  ghost predicate SubscriptionsUnique(teams: Teams) {
    forall s, t | s in teams && t in teams && teams[s].subscription == teams[t].subscription != "" :: s == t
  }

  /** A team that a billing event has touched is on PRO exactly when its stored status grants it. */
  ghost predicate PlansMatch(teams: Teams) {
    forall t | t in teams && teams[t].provider != "" ::
      teams[t].plan == if GrantsProAccess(teams[t].status) then "PRO" else "FREE"
  }

  lemma UniqueStep(db: Database, s: Step)
    requires Enabled(db, s) && SubscriptionsUnique(db.teams)
    ensures SubscriptionsUnique(Next(db, s).teams)
  {
  }

  lemma PlansStep(db: Database, s: Step)
    requires Enabled(db, s) && PlansMatch(db.teams)
    ensures PlansMatch(Next(db, s).teams)
  {
  }

  lemma {:induction false} RunsKeepBilling(db: Database, run: seq<Step>)
    requires SubscriptionsUnique(db.teams) && PlansMatch(db.teams) && Outcome(db, run).Some?
    ensures SubscriptionsUnique(Outcome(db, run).value.teams) && PlansMatch(Outcome(db, run).value.teams)
  {
    if run != [] {
      var init := run[..|run| - 1];
      RunsKeepBilling(db, init);
      UniqueStep(Outcome(db, init).value, run[|run| - 1]);
      PlansStep(Outcome(db, init).value, run[|run| - 1]);
    }
  }

  lemma LiveIsNotRemovable(t: Team)
    requires Live(t)
    ensures !Removable(t)
  {
    assert Lower("active") == "active" && Lower("trialing") == "trialing";
  }

  /** Whatever an event claims, a team with a live subscription keeps it: only events of that very
      subscription change the team. */
  lemma LiveNeverRebound(db: Database, s: Step, team: Id)
    requires Enabled(db, s) && SubscriptionsUnique(db.teams) && team in db.teams && Live(db.teams[team])
    ensures team in Next(db, s).teams && Next(db, s).teams[team].subscription == db.teams[team].subscription
    ensures s.Deliver? && Next(db, s).teams[team] != db.teams[team] ==> s.ev.subscription == db.teams[team].subscription
  {
    LiveIsNotRemovable(db.teams[team]);
  }

  /** The team keeps its subscription over a run for as long as that stays live. */
  lemma {:induction false} LiveKeptOverRun(db: Database, run: seq<Step>, team: Id)
    requires SubscriptionsUnique(db.teams) && PlansMatch(db.teams) && Outcome(db, run).Some? && team in db.teams
    requires forall k | 0 <= k < |run| ::
               && Outcome(db, run[..k]).Some? && team in Outcome(db, run[..k]).value.teams
               && Live(Outcome(db, run[..k]).value.teams[team])
    ensures team in Outcome(db, run).value.teams
    ensures Outcome(db, run).value.teams[team].subscription == db.teams[team].subscription
  {
    if run != [] {
      var init := run[..|run| - 1];
      forall k | 0 <= k < |init| ensures init[..k] == run[..k] {
      }
      LiveKeptOverRun(db, init, team);
      RunsKeepBilling(db, init);
      assert run[..|run| - 1] == init;
      LiveNeverRebound(Outcome(db, init).value, run[|run| - 1], team);
    }
  }

  /** The step rewrites this team's billing columns. */
  ghost predicate Touches(db: Database, s: Step, team: Id)
    requires Enabled(db, s)
  {
    s.Deliver? && s.delivery != UpdateFails && Target(db, s.ev, s.owner) == Some(team)
  }

  /** What last happened to a team's row in a run. */
  datatype Latest = Nothing | Made | Said(ev: Event) | Removed

  ghost function HappenedIn(db: Database, s: Step, team: Id): Latest
    requires Enabled(db, s)
  {
    if Touches(db, s, team) then Said(s.ev)
    else if s == NewTeam(team) then Made
    else if s == RemoveTeam(team) then Removed
    else Nothing
  }

  ghost function LastHappened(db: Database, run: seq<Step>, team: Id): Latest
    requires Outcome(db, run).Some?
  {
    if run == [] then Nothing
    else
      var init, s := run[..|run| - 1], run[|run| - 1];
      var last := HappenedIn(Outcome(db, init).value, s, team);
      if last == Nothing then LastHappened(db, init, team) else last
  }

  /** Everything but the seat count. */
  function ButSeats(t: Team): Team {
    t.(seats := None)
  }

  /** `row` is what remains of the row `was` after that. */
  predicate FollowsFrom(row: Option<Team>, was: Option<Team>, last: Latest) {
    match last
    case Nothing => if was.Some? then row.Some? && ButSeats(row.value) == ButSeats(was.value) else row == None
    case Made => row.Some? && ButSeats(row.value) == ButSeats(NEW_TEAM)
    case Said(ev) => row.Some? && ButSeats(row.value) == ButSeats(Applied(ev))
    case Removed => row == None
  }

  function RowOf(db: Database, team: Id): Option<Team> {
    if team in db.teams then Some(db.teams[team]) else None
  }

  /** A step leaves every row but the one it is about as it is, seats aside. */
  lemma OthersUntouched(db: Database, s: Step, team: Id)
    requires Enabled(db, s)
    ensures FollowsFrom(RowOf(Next(db, s), team), RowOf(db, team), HappenedIn(db, s, team))
  {
  }

  /** Over every run a team's row is what the last event applied to it said, unless the team was made or
      removed since; only the seat count may have been synchronised. */
  lemma {:induction false} RowIsLastApplied(db: Database, run: seq<Step>, team: Id)
    requires Outcome(db, run).Some?
    ensures FollowsFrom(RowOf(Outcome(db, run).value, team), RowOf(db, team), LastHappened(db, run, team))
  {
    if run != [] {
      RowIsLastApplied(db, run[..|run| - 1], team);
      OthersUntouched(Outcome(db, run[..|run| - 1]).value, run[|run| - 1], team);
    }
  }

  // ---------- Redelivery ----------

  /** Ids of events in the ledger are never forgotten. */
  lemma {:induction false} LedgerGrows(db: Database, run: seq<Step>)
    requires Outcome(db, run).Some?
    ensures db.ledger <= Outcome(db, run).value.ledger
  {
    if run != [] {
      LedgerGrows(db, run[..|run| - 1]);
    }
  }

  /** Once recorded, an event changes nothing, however much later it is delivered again. */
  lemma RecordedReplayed(db: Database, run: seq<Step>, ev: Event, owner: Option<Id>, d: Delivery)
    requires ev.id in db.ledger && Outcome(db, run).Some?
    requires ev.subscription != "" ==> Found(Outcome(db, run).value.teams, ev.subscription, owner)
    ensures Handled(Outcome(db, run).value, ev, owner, d) == (Outcome(db, run).value, Received)
  {
    LedgerGrows(db, run);
  }

  /** Delivered again at once, after a first delivery that got no further than the UPDATE, an event
      finds the same team and leaves it as it is. */
  lemma RedeliveryIdempotent(db: Database, ev: Event, owner: Option<Id>, again: Option<Id>)
    requires SubscriptionsUnique(db.teams)
    requires ev.subscription != "" ==> Found(db.teams, ev.subscription, owner)
    requires ev.subscription != "" ==> Found(Handled(db, ev, owner, LedgerFails).0.teams, ev.subscription, again)
    ensures Handled(Handled(db, ev, owner, LedgerFails).0, ev, again, Completed) == Handled(db, ev, owner, Completed)
  {
    var first := Handled(db, ev, owner, LedgerFails).0;
    UniqueStep(db, Deliver(ev, owner, LedgerFails));
    var target := Target(db, ev, owner);
    if target.Some? {
      assert first.teams[target.value] == Applied(ev);
      assert Target(first, ev, again) == target;
      assert first.teams[target.value := Applied(ev)] == first.teams;
    }
  }

  /** A delivery for the team's own subscription is harmless exactly when the event is already recorded or
      says what the row says. */
  lemma HarmlessExactlyWhen(db: Database, ev: Event, owner: Option<Id>, team: Id)
    requires SubscriptionsUnique(db.teams) && team in db.teams && ev.subscriptionEvent
    requires ev.subscription == db.teams[team].subscription != "" && Found(db.teams, ev.subscription, owner)
    ensures Handled(db, ev, owner, Completed).0.teams == db.teams <==>
            ev.id in db.ledger || Applied(ev) == db.teams[team]
    ensures ev.id !in db.ledger ==> Handled(db, ev, owner, Completed).0.teams[team] == Applied(ev)
  {
    assert owner == Some(team);
    if ev.id !in db.ledger && Applied(ev) == db.teams[team] {
      assert db.teams[team := Applied(ev)] == db.teams;
    }
  }

  lemma {:induction false} UniqueOverRun(db: Database, run: seq<Step>)
    requires SubscriptionsUnique(db.teams) && Outcome(db, run).Some?
    ensures SubscriptionsUnique(Outcome(db, run).value.teams)
  {
    if run != [] {
      UniqueOverRun(db, run[..|run| - 1]);
      UniqueStep(Outcome(db, run[..|run| - 1]).value, run[|run| - 1]);
    }
  }

  /** Ids that a run puts on the ledger. */
  ghost function Recorded(db: Database, run: seq<Step>): set<Id>
    requires Outcome(db, run).Some?
  {
    if run == [] then {}
    else
      var init, s := run[..|run| - 1], run[|run| - 1];
      Recorded(db, init) + if Records(Outcome(db, init).value, s) then {s.ev.id} else {}
  }

  ghost predicate Records(db: Database, s: Step)
    requires Enabled(db, s)
  {
    && s.Deliver? && s.delivery != LedgerFails
    && (s.ev.subscriptionEvent ==> s.delivery == Completed && Target(db, s.ev, s.owner).Some?)
  }

  lemma {:induction false} LedgerIsRecorded(db: Database, run: seq<Step>)
    requires Outcome(db, run).Some?
    ensures Outcome(db, run).value.ledger == db.ledger + Recorded(db, run)
  {
    if run != [] {
      LedgerIsRecorded(db, run[..|run| - 1]);
    }
  }

  /** Over runs: after whatever has been applied to the team, an event of its subscription that arrives late
      is harmless exactly when an earlier delivery of it was recorded or the row already says the same.
      Otherwise it overrides the newer event, whether it was never delivered before or its ledger row was
      lost, and with it the plan if the two statuses disagree on it. */
  lemma LateDeliveryExactlyWhen(db: Database, run: seq<Step>, ev: Event, owner: Option<Id>, team: Id)
    requires SubscriptionsUnique(db.teams) && Outcome(db, run).Some? && ev.subscriptionEvent
    requires team in Outcome(db, run).value.teams
    requires ev.subscription == Outcome(db, run).value.teams[team].subscription != ""
    requires Found(Outcome(db, run).value.teams, ev.subscription, owner)
    ensures var now := Outcome(db, run).value;
      var next := Handled(now, ev, owner, Completed).0;
      && (next.teams == now.teams <==> ev.id in db.ledger + Recorded(db, run) || Applied(ev) == now.teams[team])
      && (ev.id !in db.ledger + Recorded(db, run) ==> next.teams[team] == Applied(ev))
    ensures var recent := LastHappened(db, run, team);
      recent.Said? && ev.id !in db.ledger + Recorded(db, run) ==>
        (Handled(Outcome(db, run).value, ev, owner, Completed).0.teams[team].plan ==
          Outcome(db, run).value.teams[team].plan
         <==> GrantsProAccess(ev.status) == GrantsProAccess(recent.ev.status))
  {
    UniqueOverRun(db, run);
    LedgerIsRecorded(db, run);
    RowIsLastApplied(db, run, team);
    HarmlessExactlyWhen(Outcome(db, run).value, ev, owner, team);
  }

  /** Both ways to be late, as runs: `stale` loses its ledger row, or is not delivered at all, before
      `recent` is applied. Either way the next delivery of `stale` puts the team back. */
  lemma StaleDeliveryReverts(db: Database, stale: Event, recent: Event, team: Id, lost: bool)
    requires SubscriptionsUnique(db.teams) && team in db.teams
    requires stale.subscriptionEvent && recent.subscriptionEvent && stale.id != recent.id
    requires stale.subscription == recent.subscription == db.teams[team].subscription != ""
    requires stale.id !in db.ledger && recent.id !in db.ledger
    ensures var owner := Some(team);
      var start := if lost then Handled(db, stale, owner, LedgerFails).0 else db;
      var newer := Handled(start, recent, owner, Completed).0;
      && newer.teams[team] == Applied(recent)
      && Handled(newer, stale, owner, Completed).0.teams[team] == Applied(stale)
  {
    var owner := Some(team);
    var start := if lost then Handled(db, stale, owner, LedgerFails).0 else db;
    UniqueStep(db, Deliver(stale, owner, LedgerFails));
    HarmlessExactlyWhen(start, recent, owner, team);
    var newer := Handled(start, recent, owner, Completed).0;
    UniqueStep(start, Deliver(recent, owner, Completed));
    HarmlessExactlyWhen(newer, stale, owner, team);
  }

  /** An event that no team can be found for is acknowledged, changes nothing and is not recorded. */
  lemma UnresolvedIsAcknowledged(db: Database, ev: Event, owner: Option<Id>, d: Delivery)
    requires ev.subscription != "" ==> Found(db.teams, ev.subscription, owner)
    requires ev.subscriptionEvent && ev.id !in db.ledger
    ensures Resolve(db.teams, ev, owner).None? <==> ev.id !in Handled(db, ev, owner, Completed).0.ledger
    ensures Resolve(db.teams, ev, owner).None? ==> Handled(db, ev, owner, d) == (db, Received)
  {
  }
}
