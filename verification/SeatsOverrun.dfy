/** How a free team gets past its seats: only in company, and a run in which it happens. */
module SeatsOverrun {
  import opened Common
  import opened Seats
  import opened SeatsFacts
  import opened Text

  // ---------- Never alone ----------

  /** The request leaves the team with more seats taken than before it. */
  predicate TakesSeat(db: Tables, r: Request, team: Id)
    requires Enabled(db, r.action)
  {
    SeatsOf(Handled(db, true, r.at, r.action).0, team, r.at) > SeatsOf(db, team, r.at)
  }

  ghost predicate SomeoneElseTakesSeat(db: Tables, run: seq<Request>, team: Id, now: int) {
    exists k | 0 <= k < |run| && Outcome(db, true, run[..k]).Some? ::
      && run[k].at == now && Enabled(Outcome(db, true, run[..k]).value, run[k].action)
      && TakesSeat(Outcome(db, true, run[..k]).value, run[k], team)
  }

  ghost predicate WithinSeats(db: Tables, run: seq<Request>, team: Id) {
    Outcome(db, true, run).Some? && run != [] ==>
      SeatsOf(Outcome(db, true, run).value, team, run[|run| - 1].at) <= FREE_MAX_MEMBERS
  }

  /** Within the seats after every request. */
  ghost predicate AlwaysWithin(db: Tables, run: seq<Request>, team: Id) {
    forall k | 0 <= k <= |run| :: WithinSeats(db, run[..k], team)
  }

  lemma EarlierRequests(db: Tables, run: seq<Request>, team: Id, start: int)
    requires run != []
    ensures InOrder(start, run) ==> InOrder(start, run[..|run| - 1])
    ensures AlwaysWithin(db, run, team) ==> AlwaysWithin(db, run[..|run| - 1], team)
  {
    var init := run[..|run| - 1];
    assert forall k | 0 <= k <= |init| :: init[..k] == run[..k];
  }

  lemma SeatTakenEarlier(db: Tables, run: seq<Request>, team: Id, now: int)
    requires run != [] && !SomeoneElseTakesSeat(db, run, team, now)
    ensures !SomeoneElseTakesSeat(db, run[..|run| - 1], team, now)
  {
    var init := run[..|run| - 1];
    assert forall k | 0 <= k < |init| :: init[..k] == run[..k] && init[k] == run[k];
  }

  lemma LastTakesNone(db: Tables, run: seq<Request>, team: Id, now: int)
    requires run != [] && Outcome(db, true, run).Some? && run[|run| - 1].at == now
    requires !SomeoneElseTakesSeat(db, run, team, now)
    ensures SeatsOf(Outcome(db, true, run).value, team, now) <=
            SeatsOf(Outcome(db, true, run[..|run| - 1]).value, team, now)
  {
    assert !TakesSeat(Outcome(db, true, run[..|run| - 1]).value, run[|run| - 1], team);
  }

  /** An invite gives its seat back at its expiry. */
  lemma SeatGivenBack(db: Tables, team: Id, id: Id, before: int, now: int)
    requires IsPendingFor(db, team, id) && before < now == db.invites[id].expires
    ensures SeatsOf(db, team, now) < SeatsOf(db, team, before)
  {
    assert id in ReservedOf(db, team, before) && id !in ReservedOf(db, team, now);
    Smaller(ReservedOf(db, team, now) + {id}, ReservedOf(db, team, before));
  }

  ghost predicate Expiring(db: Tables, team: Id, id: Id, now: int) {
    IsPendingFor(db, team, id) && db.invites[id].expires == now
  }

  /** An invite at its expiry was pending already before any request of that instant. */
  lemma ExpiringBefore(db: Tables, r: Request, team: Id, id: Id)
    requires Enabled(db, r.action) && Expiring(Handled(db, true, r.at, r.action).0, team, id, r.at)
    ensures Expiring(db, team, id, r.at)
  {
    match r.action
    case CreateInvite(_, _, _, _, _) => InvitedKeeps(db, true, r.at, r.action);
    case AcceptInvite(_, _) =>
    case RevokeInvite(_, _) =>
    case CreateTeam(_, _) =>
    case ChangeRole(_, _, _) =>
    case RemoveMember(_, _) =>
    case SetPlan(_, _) =>
    case SetEmail(_, _, _) =>
    case DeleteAccount(_, _) =>
    case _ => SlotKeeps(db, true, r.action);
  }

  /** While an invite stands at its expiry, and nobody has taken a seat at that instant, one is free. */
  lemma {:induction false} OneSeatFree(db: Tables, run: seq<Request>, team: Id, start: int, id: Id, now: int)
    requires Outcome(db, true, run).Some? && InOrder(start, run) && AlwaysWithin(db, run, team)
    requires SeatsOf(db, team, start) <= FREE_MAX_MEMBERS && start < now
    requires run != [] ==> run[|run| - 1].at <= now
    requires Expiring(Outcome(db, true, run).value, team, id, now)
    requires !SomeoneElseTakesSeat(db, run, team, now)
    ensures SeatsOf(Outcome(db, true, run).value, team, now) < FREE_MAX_MEMBERS
    decreases |run|
  {
    var after := Outcome(db, true, run).value;
    if run == [] {
      SeatGivenBack(db, team, id, start, now);
    } else if run[|run| - 1].at < now {
      assert run[..|run|] == run;
      assert WithinSeats(db, run[..|run|], team);
      SeatGivenBack(after, team, id, run[|run| - 1].at, now);
    } else {
      var init, r := run[..|run| - 1], run[|run| - 1];
      EarlierRequests(db, run, team, start);
      SeatTakenEarlier(db, run, team, now);
      ExpiringBefore(Outcome(db, true, init).value, r, team, id);
      OneSeatFree(db, init, team, start, id, now);
      LastTakesNone(db, run, team, now);
    }
  }

  lemma WithinBefore(db: Tables, init: seq<Request>, team: Id, start: int, now: int)
    requires Outcome(db, true, init).Some? && AlwaysWithin(db, init, team)
    requires SeatsOf(db, team, start) <= FREE_MAX_MEMBERS && start <= now
    requires init != [] ==> init[|init| - 1].at <= now
    ensures SeatsOf(Outcome(db, true, init).value, team, now) <= FREE_MAX_MEMBERS
  {
    if init == [] {
      TimePasses(db, team, start, now);
    } else {
      assert init[..|init|] == init;
      assert WithinSeats(db, init[..|init|], team);
      TimePasses(Outcome(db, true, init).value, team, init[|init| - 1].at, now);
    }
  }

  /** A request that takes a free team past its seats is never the only one of its instant to take a seat. */
  lemma NeverExceededAlone(db: Tables, init: seq<Request>, r: Request, team: Id, start: int)
    requires Outcome(db, true, init).Some? && AlwaysWithin(db, init, team) && InOrder(start, init)
    requires SeatsOf(db, team, start) <= FREE_MAX_MEMBERS && start < r.at
    requires init != [] ==> init[|init| - 1].at <= r.at
    requires var before := Outcome(db, true, init).value;
             && Enabled(before, r.action) && team in before.teams && Unpaid(before, team)
             && SeatsOf(Handled(before, true, r.at, r.action).0, team, r.at) > FREE_MAX_MEMBERS
    ensures SomeoneElseTakesSeat(db, init, team, r.at)
  {
    var before := Outcome(db, true, init).value;
    WithinBefore(db, init, team, start, r.at);
    SeatsExceededExactlyWhen(before, true, r.at, r.action, team);
    if !SomeoneElseTakesSeat(db, init, team, r.at) {
      OneSeatFree(db, init, team, start, r.action.id, r.at);
      assert false;
    }
  }

  // ---------- A run that does it ----------

  const NO_TABLES := Tables(map[], map[], map[], map[], map[], {})

  function Invitation(email: string, expires: int): Invite {
    Invite("team", "owner", email, "MEMBER", Pending, expires)
  }

  function Invites(at: int, email: string, id: Id): Request {
    Request(at, CreateInvite("owner", "team", email, "MEMBER", id))
  }

  /** The owner invites "a" and a second later "b"; at the instant the first invite expires, the owner
      invites "c", and after that "a" accepts. */
  function Preparation(): seq<Request> {
    Second() + [Invites(INVITE_LIFETIME, "c", "3")]
  }

  function Second(): seq<Request> {
    First() + [Invites(1, "b", "2")]
  }

  function First(): seq<Request> {
    Opening() + [Invites(0, "a", "1")]
  }

  function Opening(): seq<Request> {
    [Request(0, SetEmail("ann", "a", true)), Request(0, CreateTeam("owner", "team"))]
  }

  const LAST := Request(INVITE_LIFETIME, AcceptInvite("ann", "1"))

  function Started(): Tables {
    Tables(map["team" := Team("owner", "FREE")], map[Seat("team", "owner") := "OWNER"], map[], map[],
           map["ann" := "a"], {"ann"})
  }

  function WithInvites(invites: map<Id, Invite>): Tables {
    Started().(invites := invites)
  }

  function FirstInvite(): map<Id, Invite> {
    map["1" := Invitation("a", INVITE_LIFETIME)]
  }

  function TwoInvites(): map<Id, Invite> {
    FirstInvite()["2" := Invitation("b", 1 + INVITE_LIFETIME)]
  }

  function ThreeInvites(): map<Id, Invite> {
    TwoInvites()["3" := Invitation("c", INVITE_LIFETIME + INVITE_LIFETIME)]
  }

  lemma OneMember(invites: map<Id, Invite>)
    ensures MembersOf(WithInvites(invites), "team") == {"owner"}
  {
    InMembers(WithInvites(invites), "team", "owner");
    assert forall k | k in WithInvites(invites).members :: k == Seat("team", "owner");
  }

  lemma Letter(c: char)
    requires 'a' <= c <= 'z'
    ensures Normal([c]) == [c]
  {
    assert Trim([c]) == [c];
  }

  /** An invite to a fresh address is granted while fewer than three seats are taken. */
  lemma InviteGranted(invites: map<Id, Invite>, now: int, c: char, id: Id)
    requires 'b' <= c <= 'z' || (c == 'a' && invites == map[])
    requires id !in invites && forall i | i in invites :: invites[i].email != [c]
    requires 1 + |ReservedOf(WithInvites(invites), "team", now)| < FREE_MAX_MEMBERS
    ensures Enabled(WithInvites(invites), Invites(now, [c], id).action)
    ensures Handled(WithInvites(invites), true, now, Invites(now, [c], id).action) ==
            (WithInvites(invites[id := Invitation([c], now + INVITE_LIFETIME)]), Done)
  {
    var db := WithInvites(invites);
    Letter(c);
    OneMember(invites);
    assert !HasMemberWithEmail(db, "team", [c]) by {
      assert forall u | u in db.emails :: u == "ann" && Seat("team", u) !in db.members;
    }
    assert !HasInviteTo(db, "team", [c]);
  }

  lemma RunNext(db: Tables, run: seq<Request>, s: Tables, r: Request)
    requires Outcome(db, true, run) == Some(s) && Enabled(s, r.action)
    ensures Outcome(db, true, run + [r]) == Some(Handled(s, true, r.at, r.action).0)
  {
    assert (run + [r])[..|run|] == run;
  }

  lemma Opened()
    ensures Outcome(NO_TABLES, true, Opening()) == Some(WithInvites(map[]))
  {
    var run := Opening();
    var named := NO_TABLES.(emails := map["ann" := "a"], verified := {"ann"});
    assert Handled(NO_TABLES, true, 0, run[0].action).0 == named;
    RunNext(NO_TABLES, [], NO_TABLES, run[0]);
    assert [] + [run[0]] == [run[0]] && [run[0]] + [run[1]] == run;
    assert Handled(named, true, 0, run[1].action).0 == WithInvites(map[]);
    RunNext(NO_TABLES, [run[0]], named, run[1]);
  }

  lemma InvitedNext(run: seq<Request>, invites: map<Id, Invite>, now: int, c: char, id: Id)
    requires Outcome(NO_TABLES, true, run) == Some(WithInvites(invites))
    requires 'b' <= c <= 'z' || (c == 'a' && invites == map[])
    requires id !in invites && forall i | i in invites :: invites[i].email != [c]
    requires 1 + |ReservedOf(WithInvites(invites), "team", now)| < FREE_MAX_MEMBERS
    ensures Outcome(NO_TABLES, true, run + [Invites(now, [c], id)]) ==
            Some(WithInvites(invites[id := Invitation([c], now + INVITE_LIFETIME)]))
  {
    InviteGranted(invites, now, c, id);
    RunNext(NO_TABLES, run, WithInvites(invites), Invites(now, [c], id));
  }

  lemma FirstInvited()
    ensures Outcome(NO_TABLES, true, First()) == Some(WithInvites(FirstInvite()))
  {
    Opened();
    assert ReservedOf(WithInvites(map[]), "team", 0) == {};
    InvitedNext(Opening(), map[], 0, 'a', "1");
  }

  lemma SecondInvited()
    ensures Outcome(NO_TABLES, true, Second()) == Some(WithInvites(TwoInvites()))
  {
    FirstInvited();
    assert ReservedOf(WithInvites(FirstInvite()), "team", 1) == {"1"};
    InvitedNext(First(), FirstInvite(), 1, 'b', "2");
  }

  lemma TwoInvitesStand()
    ensures "3" !in TwoInvites() && forall i | i in TwoInvites() :: TwoInvites()[i].email != ['c']
  {
    assert TwoInvites().Keys == {"1", "2"};
    assert TwoInvites()["1"].email == ['a'] && TwoInvites()["2"].email == ['b'];
  }

  lemma OneSeatReserved()
    ensures |ReservedOf(WithInvites(TwoInvites()), "team", INVITE_LIFETIME)| == 1
  {
    assert ReservedOf(WithInvites(TwoInvites()), "team", INVITE_LIFETIME) == {"2"};
  }

  lemma ThirdInvited()
    ensures Outcome(NO_TABLES, true, Preparation()) == Some(WithInvites(ThreeInvites()))
  {
    SecondInvited();
    TwoInvitesStand();
    OneSeatReserved();
    InvitedNext(Second(), TwoInvites(), INVITE_LIFETIME, 'c', "3");
  }

  lemma SeatsTaken()
    ensures SeatsOf(WithInvites(ThreeInvites()), "team", INVITE_LIFETIME) == FREE_MAX_MEMBERS
    ensures |MembersOf(WithInvites(ThreeInvites()), "team")| == 1
  {
    OneMember(ThreeInvites());
    assert ReservedOf(WithInvites(ThreeInvites()), "team", INVITE_LIFETIME) == {"2", "3"};
  }

  /** From an empty database the handlers reach a free team with four of its three seats taken. */
  lemma OverrunHappens()
    ensures Outcome(NO_TABLES, true, Preparation() + [LAST]).Some?
    ensures var db := Outcome(NO_TABLES, true, Preparation() + [LAST]).value;
            && Unpaid(db, "team") && SeatsOf(db, "team", INVITE_LIFETIME) == FREE_MAX_MEMBERS + 1
  {
    var before := WithInvites(ThreeInvites());
    ThirdInvited();
    RunNext(NO_TABLES, Preparation(), before, LAST);
    SeatsTaken();
    AcceptAtExpiry(before, true, INVITE_LIFETIME, "ann", "1");
  }
}
