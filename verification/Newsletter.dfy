/** The newsletter's double opt-in: sign up, confirm from the mailed link, unsubscribe. */
module Newsletter {
  import opened Common

  const CONFIRM_TTL := 48 * 60 * 60
  const RESEND_COOLDOWN := 10 * 60

  type Email = string

  /** Only a hash of the confirmation token is stored; distinct tokens have distinct hashes. */
  datatype Hashed = Hashed(of: string)

  datatype Status = Pending | Confirmed | Unsubscribed

  datatype Row = Row(status: Status, confirmHash: Option<Hashed>, expires: Option<int>, unsubToken: string,
                     sentAt: Option<int>)
  type Subscribers = map<Email, Row>

  datatype Event =
    | Sent(email: Email, token: string, at: int)
    | Joined(email: Email, token: string, at: int)
    | Left(email: Email, at: int)

  /** `row` is the row that the handler's query by token returned. */
  datatype Action =
    | Register(email: Email, token: string, unsubToken: string)
    | Confirm(token: string, row: Option<Email>)
    | Unsubscribe(token: string, row: Option<Email>)

  predicate PlausibleToken(token: string) {
    16 <= |token| <= 128
  }

  predicate CoolingDown(r: Row, now: int) {
    r.sentAt.Some? && now - r.sentAt.value < RESEND_COOLDOWN
  }

  predicate Sends(subs: Subscribers, email: Email, now: int) {
    email in subs ==> subs[email].status != Confirmed && !CoolingDown(subs[email], now)
  }

  function Registered(subs: Subscribers, email: Email, token: string, unsubToken: string, now: int): Subscribers {
    if !Sends(subs, email, now) then subs
    else subs[email := Row(Pending, Some(Hashed(token)), Some(now + CONFIRM_TTL),
                           if email in subs then subs[email].unsubToken else unsubToken, Some(now))]
  }

  predicate Confirms(r: Row, now: int) {
    r.status == Pending && r.expires.Some? && now <= r.expires.value
  }

  function ConfirmedIn(subs: Subscribers, email: Email): Subscribers
    requires email in subs
  {
    subs[email := subs[email].(status := Confirmed)]
  }

  function RemovedFrom(subs: Subscribers, email: Email): Subscribers
    requires email in subs
  {
    if subs[email].status == Unsubscribed then subs
    else subs[email := subs[email].(status := Unsubscribed, confirmHash := None, expires := None)]
  }

  predicate HasHash(subs: Subscribers, email: Email, token: string) {
    email in subs && subs[email].confirmHash == Some(Hashed(token))
  }

  predicate HasUnsubToken(subs: Subscribers, email: Email, token: string) {
    email in subs && subs[email].unsubToken == token
  }

  /** What a query by confirmation token may return. */
  predicate Found(subs: Subscribers, token: string, row: Option<Email>) {
    if row.Some? then HasHash(subs, row.value, token) else forall e | e in subs :: !HasHash(subs, e, token)
  }

  predicate FoundUnsub(subs: Subscribers, token: string, row: Option<Email>) {
    if row.Some? then HasUnsubToken(subs, row.value, token) else forall e | e in subs :: !HasUnsubToken(subs, e, token)
  }

  datatype Request = Request(at: int, action: Action)

  /** The event a request brings about, if any. */
  function Emitted(subs: Subscribers, r: Request): Option<Event> {
    match r.action
    case Register(email, token, _) => if Sends(subs, email, r.at) then Some(Sent(email, token, r.at)) else None
    case Confirm(token, row) =>
      if row.Some? && row.value in subs && Confirms(subs[row.value], r.at)
      then Some(Joined(row.value, token, r.at)) else None
    case Unsubscribe(_, row) =>
      if row.Some? && row.value in subs && subs[row.value].status != Unsubscribed
      then Some(Left(row.value, r.at)) else None
  }

  function Updated(subs: Subscribers, r: Request): Subscribers {
    if Emitted(subs, r).None? then subs
    else
      match r.action
      case Register(email, token, unsub) => Registered(subs, email, token, unsub, r.at)
      case Confirm(token, row) => ConfirmedIn(subs, row.value)
      case Unsubscribe(token, row) => RemovedFrom(subs, row.value)
  }

  class Store {
    var subs: Subscribers

    constructor ()
      ensures subs == map[]
    {
      subs := map[];
    }

    method RegisterSubscriber(email: Email, token: string, unsubToken: string, now: int) returns (send: bool)
      modifies this
      ensures send == Sends(old(subs), email, now)
      ensures subs == Updated(old(subs), Request(now, Register(email, token, unsubToken)))
    {
      if email !in subs {
        subs := subs[email := Row(Pending, Some(Hashed(token)), Some(now + CONFIRM_TTL), unsubToken, Some(now))];
        return true;
      }
      var r := subs[email];
      if r.status == Confirmed {
        return false;
      }
      if r.sentAt.Some? && now - r.sentAt.value < RESEND_COOLDOWN {
        return false;
      }
      subs := subs[email := r.(status := Pending, confirmHash := Some(Hashed(token)),
        expires := Some(now + CONFIRM_TTL), sentAt := Some(now))];
      send := true;
    }

    method HandleConfirm(token: string, now: int) returns (row: Option<Email>, joined: bool)
      modifies this
      ensures PlausibleToken(token) ==> Found(old(subs), token, row)
      ensures joined == (PlausibleToken(token) && row.Some? && Confirms(old(subs)[row.value], now))
      ensures subs == Updated(old(subs), Request(now, Confirm(token, row)))
    {
      row, joined := None, false;
      if |token| < 16 || |token| > 128 {
        return;
      }
      if e :| e in subs && subs[e].confirmHash == Some(Hashed(token)) {
        row := Some(e);
        var r := subs[e];
        if r.status == Confirmed {
          return;
        }
        if r.status != Pending || r.expires.None? || now > r.expires.value {
          return;
        }
        subs := subs[e := r.(status := Confirmed)];
        joined := true;
      }
    }

    method HandleUnsubscribe(token: string, now: int) returns (row: Option<Email>)
      modifies this
      ensures PlausibleToken(token) ==> FoundUnsub(old(subs), token, row)
      ensures subs == Updated(old(subs), Request(now, Unsubscribe(token, row)))
    {
      row := None;
      if |token| < 16 || |token| > 128 {
        return;
      }
      if e :| e in subs && subs[e].unsubToken == token {
        row := Some(e);
        if subs[e].status != Unsubscribed {
          subs := subs[e := subs[e].(status := Unsubscribed, confirmHash := None, expires := None)];
        }
      }
    }
  }

  // ---------- Runs ----------

  datatype System = System(subs: Subscribers, history: seq<Event>)

  /** Generated tokens are plausible and have not been sent before. */
  ghost predicate Enabled(s: System, r: Request) {
    match r.action
    case Register(_, token, _) => PlausibleToken(token) && forall h | h in s.history && h.Sent? :: h.token != token
    case Confirm(token, row) => if PlausibleToken(token) then Found(s.subs, token, row) else row.None?
    case Unsubscribe(token, row) => if PlausibleToken(token) then FoundUnsub(s.subs, token, row) else row.None?
  }

  ghost function Next(s: System, r: Request): System {
    var e := Emitted(s.subs, r);
    System(Updated(s.subs, r), if e.Some? then s.history + [e.value] else s.history)
  }

  /** Where a run leads from an empty table, if each of its requests is possible. */
  ghost function Outcome(run: seq<Request>): Option<System> {
    if run == [] then Some(System(map[], []))
    else
      var before := Outcome(run[..|run| - 1]);
      if before.Some? && Enabled(before.value, run[|run| - 1]) then Some(Next(before.value, run[|run| - 1])) else None
  }

  /** The last thing that happened to an address. */
  function LastFor(history: seq<Event>, email: Email): (r: Option<Event>)
    ensures r.Some? ==> r.value in history && r.value.email == email
    ensures r.None? ==> forall h | h in history :: h.email != email
  {
    if history == [] then None
    else if history[|history| - 1].email == email then Some(history[|history| - 1])
    else LastFor(history[..|history| - 1], email)
  }

  /** A row says exactly what last happened to its address. */
  predicate RowSays(subs: Subscribers, email: Email, last: Option<Event>) {
    match last
    case None => email !in subs
    case Some(Sent(_, token, at)) =>
      email in subs && subs[email].status == Pending && subs[email].confirmHash == Some(Hashed(token))
      && subs[email].expires == Some(at + CONFIRM_TTL) && subs[email].sentAt == Some(at)
    case Some(Joined(_, _, _)) => email in subs && subs[email].status == Confirmed
    case Some(Left(_, _)) => email in subs && subs[email].status == Unsubscribed && subs[email].confirmHash == None
  }

  predicate Mirrors(subs: Subscribers, history: seq<Event>, email: Email) {
    RowSays(subs, email, LastFor(history, email))
  }

  lemma LastAfter(history: seq<Event>, e: Event, email: Email)
    ensures LastFor(history + [e], email) == if e.email == email then Some(e) else LastFor(history, email)
  {
    assert (history + [e])[..|history|] == history;
  }

  lemma RowStep(subs: Subscribers, r: Request, email: Email, last: Option<Event>)
    requires RowSays(subs, email, last)
    ensures var e := Emitted(subs, r);
            RowSays(Updated(subs, r), email, if e.Some? && e.value.email == email then e else last)
  {
  }

  lemma MirrorsStep(s: System, r: Request, email: Email)
    requires Mirrors(s.subs, s.history, email)
    ensures Mirrors(Next(s, r).subs, Next(s, r).history, email)
  {
    var e := Emitted(s.subs, r);
    RowStep(s.subs, r, email, LastFor(s.history, email));
    if e.Some? {
      LastAfter(s.history, e.value, email);
    }
  }

  lemma {:induction false} RowsMirrorHistory(run: seq<Request>, email: Email)
    requires Outcome(run).Some?
    ensures Mirrors(Outcome(run).value.subs, Outcome(run).value.history, email)
  {
    if run != [] {
      var init := run[..|run| - 1];
      RowsMirrorHistory(init, email);
      MirrorsStep(Outcome(init).value, run[|run| - 1], email);
    }
  }

  // ---------- Confirmations ----------

  /** The latest thing to have happened to the address is the send of that very token, within 48 hours. */
  ghost predicate JoinJustified(before: seq<Event>, e: Event)
    requires e.Joined?
  {
    var last := LastFor(before, e.email);
    && last.Some? && last.value.Sent? && last.value.token == e.token
    && e.at <= last.value.at + CONFIRM_TTL
  }

  ghost predicate DoubleOptIn(history: seq<Event>) {
    forall i | 0 <= i < |history| && history[i].Joined? :: JoinJustified(history[..i], history[i])
  }

  lemma OptInExtended(history: seq<Event>, e: Event)
    requires DoubleOptIn(history) && (e.Joined? ==> JoinJustified(history, e))
    ensures DoubleOptIn(history + [e])
  {
    var all := history + [e];
    forall i | 0 <= i < |all| && all[i].Joined? ensures JoinJustified(all[..i], all[i]) {
      assert all[..i] == history[..i];
      assert history[..|history|] == history;
    }
  }

  /** In every run, an address joins only from the link of the latest mail sent to it, within 48
      hours of that mail, with neither an unsubscribe nor another mail in between. */
  lemma {:induction false} OnlyConfirmedJoin(run: seq<Request>)
    requires Outcome(run).Some?
    ensures DoubleOptIn(Outcome(run).value.history)
  {
    if run != [] {
      var init, r := run[..|run| - 1], run[|run| - 1];
      var s, next := Outcome(init).value, Outcome(run).value;
      OnlyConfirmedJoin(init);
      var e := Emitted(s.subs, r);
      if e.Some? {
        if r.action.Confirm? {
          RowsMirrorHistory(init, r.action.row.value);
        }
        OptInExtended(s.history, e.value);
      }
    }
  }

  /** An address counts as confirmed exactly when joining is the last thing that happened to it. */
  lemma ConfirmedExactlyWhen(run: seq<Request>, email: Email)
    requires Outcome(run).Some?
    ensures var s := Outcome(run).value;
            email in s.subs && s.subs[email].status == Confirmed <==>
            LastFor(s.history, email).Some? && LastFor(s.history, email).value.Joined?
  {
    RowsMirrorHistory(run, email);
  }

  // ---------- Sends ----------

  ghost predicate Spaced(history: seq<Event>) {
    forall i, j |
      0 <= i < j < |history| && history[i].Sent? && history[j].Sent? && history[i].email == history[j].email ::
      history[j].at - history[i].at >= RESEND_COOLDOWN
  }

  /** `sentAt` survives confirmation and unsubscription: it bounds every send so far. */
  ghost predicate SendsBounded(s: System) {
    forall h | h in s.history && h.Sent? ::
      h.email in s.subs && s.subs[h.email].sentAt.Some? && h.at <= s.subs[h.email].sentAt.value
  }

  lemma BoundedStep(s: System, r: Request)
    requires Enabled(s, r) && SendsBounded(s)
    ensures SendsBounded(Next(s, r))
  {
  }

  lemma SpacedExtended(history: seq<Event>, e: Event)
    requires Spaced(history)
    requires e.Sent? ==> forall h | h in history && h.Sent? && h.email == e.email :: e.at - h.at >= RESEND_COOLDOWN
    ensures Spaced(history + [e])
  {
    var all := history + [e];
    forall i, j | 0 <= i < j < |all| && all[i].Sent? && all[j].Sent? && all[i].email == all[j].email
      ensures all[j].at - all[i].at >= RESEND_COOLDOWN
    {
      assert all[i] == history[i] && history[i] in history;
      assert j < |history| ==> all[j] == history[j];
    }
  }

  /** In every run, two mails to one address are at least ten minutes apart, whatever happened between. */
  lemma {:induction false} SendsTenMinutesApart(run: seq<Request>)
    requires Outcome(run).Some?
    ensures Spaced(Outcome(run).value.history) && SendsBounded(Outcome(run).value)
  {
    if run != [] {
      var init, r := run[..|run| - 1], run[|run| - 1];
      var s, next := Outcome(init).value, Outcome(run).value;
      SendsTenMinutesApart(init);
      BoundedStep(s, r);
      if Emitted(s.subs, r).Some? {
        SpacedExtended(s.history, Emitted(s.subs, r).value);
      }
    }
  }

  // ---------- A link works until it is replaced or runs out ----------

  ghost predicate TokensUnique(history: seq<Event>) {
    forall i, j | 0 <= i < j < |history| && history[i].Sent? && history[j].Sent? :: history[i].token != history[j].token
  }

  /** Every stored hash is of a token that was sent to that address. */
  ghost predicate HashesSent(s: System) {
    forall e | e in s.subs && s.subs[e].confirmHash.Some? ::
      exists h | h in s.history :: h.Sent? && h.email == e && h.token == s.subs[e].confirmHash.value.of
  }

  lemma HashesStep(s: System, r: Request)
    requires Enabled(s, r) && HashesSent(s)
    ensures HashesSent(Next(s, r))
  {
    var next := Next(s, r);
    forall e | e in next.subs && next.subs[e].confirmHash.Some?
      ensures exists h | h in next.history :: h.Sent? && h.email == e && h.token == next.subs[e].confirmHash.value.of
    {
      if e in s.subs && next.subs[e].confirmHash == s.subs[e].confirmHash {
        var h :| h in s.history && h.Sent? && h.email == e && h.token == s.subs[e].confirmHash.value.of;
        assert h in next.history;
      } else {
        assert Sent(e, r.action.token, r.at) in next.history;
      }
    }
  }

  lemma {:induction false} TokensStayUnique(run: seq<Request>)
    requires Outcome(run).Some?
    ensures TokensUnique(Outcome(run).value.history) && HashesSent(Outcome(run).value)
  {
    if run != [] {
      var init, r := run[..|run| - 1], run[|run| - 1];
      var s, next := Outcome(init).value, Outcome(run).value;
      TokensStayUnique(init);
      HashesStep(s, r);
      forall i, j | 0 <= i < j < |next.history| && next.history[i].Sent? && next.history[j].Sent?
        ensures next.history[i].token != next.history[j].token
      {
        assert next.history[i] == s.history[i] && s.history[i] in s.history;
        assert j < |s.history| ==> next.history[j] == s.history[j];
      }
    }
  }

  lemma SameSend(history: seq<Event>, a: Event, b: Event)
    requires TokensUnique(history) && a in history && b in history && a.Sent? && b.Sent? && a.token == b.token
    ensures a == b
  {
    var i :| 0 <= i < |history| && history[i] == a;
    var j :| 0 <= j < |history| && history[j] == b;
    assert i == j;
  }

  /** While nothing has happened to an address since a mail was sent to it, opening that mail's link
      subscribes it exactly up to the expiry, that instant included. */
  lemma LinkWorksExactlyWhen(run: seq<Request>, sent: Event, now: int, row: Option<Email>)
    requires Outcome(run).Some? && sent.Sent? && PlausibleToken(sent.token)
    requires LastFor(Outcome(run).value.history, sent.email) == Some(sent)
    requires Enabled(Outcome(run).value, Request(now, Confirm(sent.token, row)))
    ensures row == Some(sent.email)
    ensures var next := Next(Outcome(run).value, Request(now, Confirm(sent.token, row)));
            next.subs[sent.email].status == Confirmed <==> now <= sent.at + CONFIRM_TTL
  {
    var s := Outcome(run).value;
    RowsMirrorHistory(run, sent.email);
    TokensStayUnique(run);
    assert HasHash(s.subs, sent.email, sent.token);
    var e := row.value;
    var h :| h in s.history && h.Sent? && h.email == e && h.token == s.subs[e].confirmHash.value.of;
    SameSend(s.history, h, sent);
  }
}
