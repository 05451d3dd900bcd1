/** `RunTracker`: the log and statuses of one run, streamed to the connections that watch it.
    Each region under the tracker's lock is one step; any interleaving of steps is a run. */
module Tracker {
  import opened Common

  type Conn = nat

  datatype Event = Log(text: string) | Status(status: string) | NodeStatus(node: string, state: string)

  /** `wire` is what each connection has been sent so far. */
  datatype View = View(clients: set<Conn>, logs: string, status: string, nodes: map<string, string>,
                       wire: map<Conn, seq<Event>>)

  ghost predicate WellFormed(v: View) {
    v.clients <= v.wire.Keys
  }

  function Delivered(wire: map<Conn, seq<Event>>, to: set<Conn>, e: Event): map<Conn, seq<Event>> {
    map c | c in wire :: if c in to then wire[c] + [e] else wire[c]
  }

  lemma DeliveredToMore(wire: map<Conn, seq<Event>>, to: set<Conn>, e: Event, c: Conn)
    requires c in wire && c !in to
    ensures Delivered(wire, to, e)[c := wire[c] + [e]] == Delivered(wire, to + {c}, e)
  {
  }

  /** A broadcast that still has the clients in `todo` to write to. */
  ghost function PartlyWritten(v: View, e: Event, broken: set<Conn>, todo: set<Conn>): View {
    v.(clients := v.clients - (broken - todo), wire := Delivered(v.wire, v.clients - todo - broken, e))
  }

  lemma NothingWritten(v: View, e: Event, broken: set<Conn>)
    ensures PartlyWritten(v, e, broken, v.clients) == v
  {
    assert v.clients - v.clients - broken == {};
    assert Delivered(v.wire, {}, e) == v.wire;
    assert v.clients - (broken - v.clients) == v.clients;
  }

  lemma AllWritten(v: View, e: Event, broken: set<Conn>)
    requires WellFormed(v)
    ensures PartlyWritten(v, e, broken, {}) == Written(v, e, broken)
  {
    assert v.clients - {} - broken == v.clients - broken;
    assert broken - {} == broken;
  }

  lemma WriteOneMore(v: View, e: Event, broken: set<Conn>, todo: set<Conn>, c: Conn)
    requires WellFormed(v) && todo <= v.clients && c in todo
    ensures var p := PartlyWritten(v, e, broken, todo);
      && c in p.wire
      && PartlyWritten(v, e, broken, todo - {c}) ==
         if c in broken then p.(clients := p.clients - {c}) else p.(wire := p.wire[c := p.wire[c] + [e]])
  {
    var reached := v.clients - todo - broken;
    if c in broken {
      assert v.clients - (todo - {c}) - broken == reached;
      assert v.clients - (broken - (todo - {c})) == v.clients - (broken - todo) - {c};
    } else {
      assert v.clients - (todo - {c}) - broken == reached + {c};
      assert broken - (todo - {c}) == broken - todo;
      DeliveredToMore(v.wire, reached, e, c);
    }
  }

  /** One message to every client; clients whose write fails are dropped. */
  function Written(v: View, e: Event, broken: set<Conn>): (r: View)
    requires WellFormed(v)
    ensures WellFormed(r)
  {
    v.(clients := v.clients - broken, wire := Delivered(v.wire, v.clients - broken, e))
  }

  function Replay(nodes: map<string, string>, order: seq<string>): seq<Event>
    requires forall n | n in order :: n in nodes
  {
    seq(|order|, i requires 0 <= i < |order| => NodeStatus(order[i], nodes[order[i]]))
  }

  ghost predicate Covers(nodes: map<string, string>, order: seq<string>) {
    (forall n | n in order :: n in nodes) && forall n | n in nodes :: n in order
  }

  function LogSoFar(logs: string): seq<Event> {
    if logs != "" then [Log(logs)] else []
  }

  function CatchUp(v: View, order: seq<string>): seq<Event>
    requires forall n | n in order :: n in v.nodes
  {
    LogSoFar(v.logs) + [Status(v.status)] + Replay(v.nodes, order)
  }

  lemma CatchUpOneMore(v: View, order: seq<string>, n: string)
    requires n in v.nodes && forall m | m in order :: m in v.nodes
    ensures CatchUp(v, order + [n]) == CatchUp(v, order) + [NodeStatus(n, v.nodes[n])]
  {
    assert Replay(v.nodes, order + [n]) == Replay(v.nodes, order) + [NodeStatus(n, v.nodes[n])];
  }

  class RunTracker {
    var clients: set<Conn>
    var logs: string
    var status: string
    var nodeStatuses: map<string, string>
    var wire: map<Conn, seq<Event>>

    ghost function Abs(): View
      reads this
    {
      View(clients, logs, status, nodeStatuses, wire)
    }

    constructor ()
      ensures Abs() == View({}, "", "PENDING", map[], map[])
    {
      clients, logs, status, nodeStatuses, wire := {}, "", "PENDING", map[], map[];
    }

    method Append(msg: string)
      modifies this`logs
      ensures Abs() == old(Abs()).(logs := old(logs) + msg)
    {
      logs := logs + msg;
    }

    method SetStatus(s: string)
      modifies this`status
      ensures Abs() == old(Abs()).(status := s)
    {
      status := s;
    }

    method WriteOrDrop(c: Conn, e: Event, fails: bool)
      requires c in wire
      modifies this`clients, this`wire
      ensures Abs() == if fails then old(Abs()).(clients := old(clients) - {c})
                       else old(Abs()).(wire := old(wire)[c := old(wire)[c] + [e]])
    {
      if fails {
        clients := clients - {c};
      } else {
        wire := wire[c := wire[c] + [e]];
      }
    }

    method Broadcast(e: Event, broken: set<Conn>)
      requires WellFormed(Abs())
      modifies this`clients, this`wire
      ensures Abs() == Written(old(Abs()), e, broken)
    {
      ghost var v := Abs();
      var todo := clients;
      NothingWritten(v, e, broken);
      while todo != {}
        invariant todo <= v.clients && Abs() == PartlyWritten(v, e, broken, todo)
        decreases |todo|
      {
        var c :| c in todo;
        WriteOneMore(v, e, broken, todo, c);
        WriteOrDrop(c, e, c in broken);
        todo := todo - {c};
      }
      AllWritten(v, e, broken);
    }

    method BroadcastNodeStatus(node: string, state: string, broken: set<Conn>)
      requires WellFormed(Abs())
      modifies this`nodeStatuses, this`clients, this`wire
      ensures Abs() == Written(old(Abs()).(nodes := old(nodeStatuses)[node := state]), NodeStatus(node, state), broken)
    {
      nodeStatuses := nodeStatuses[node := state];
      Broadcast(NodeStatus(node, state), broken);
    }

    method Join(c: Conn) returns (order: seq<string>)
      requires WellFormed(Abs()) && c !in wire
      modifies this`clients, this`wire
      ensures Covers(old(nodeStatuses), order)
      ensures Abs() == old(Abs()).(clients := old(clients) + {c}, wire := old(wire)[c := CatchUp(old(Abs()), order)])
    {
      clients := clients + {c};
      ghost var v := old(Abs());
      wire := wire[c := LogSoFar(logs)];
      wire := wire[c := wire[c] + [Status(status)]];
      order := [];
      assert CatchUp(v, []) == LogSoFar(logs) + [Status(status)];
      var todo := nodeStatuses.Keys;
      while todo != {}
        invariant todo <= nodeStatuses.Keys && clients == old(clients) + {c}
        invariant forall n | n in order :: n in nodeStatuses
        invariant forall n | n in nodeStatuses.Keys - todo :: n in order
        invariant wire == old(wire)[c := CatchUp(v, order)]
        decreases |todo|
      {
        var n :| n in todo;
        CatchUpOneMore(v, order, n);
        wire := wire[c := wire[c] + [NodeStatus(n, nodeStatuses[n])]];
        order := order + [n];
        todo := todo - {n};
      }
    }

    method Leave(c: Conn)
      modifies this`clients
      ensures Abs() == old(Abs()).(clients := old(clients) - {c})
    {
      clients := clients - {c};
    }
  }

  // ---------- Runs ----------

  /** `Append` and `SendLog` are the two halves of the forwarding goroutine. */
  datatype Step =
    | Append(msg: string)
    | SendLog(broken: set<Conn>)
    | SetStatus(s: string)
    | SendStatus(s: string, broken: set<Conn>)
    | SetNode(node: string, state: string, broken: set<Conn>)
    | Join(c: Conn, order: seq<string>)
    | Leave(c: Conn)

  datatype System = System(view: View, inFlight: Option<string>)

  ghost predicate Enabled(s: System, step: Step) {
    && WellFormed(s.view)
    && match step
       case Append(_) => s.inFlight.None?
       case SendLog(_) => s.inFlight.Some?
       case Join(c, order) => c !in s.view.wire && Covers(s.view.nodes, order)
       case _ => true
  }

  ghost function Next(s: System, step: Step): (r: System)
    requires Enabled(s, step)
    ensures WellFormed(r.view)
  {
    var v := s.view;
    match step
    case Append(msg) => System(v.(logs := v.logs + msg), Some(msg))
    case SendLog(broken) => System(Written(v, Log(s.inFlight.value), broken), None)
    case SetStatus(st) => s.(view := v.(status := st))
    case SendStatus(st, broken) => s.(view := Written(v, Status(st), broken))
    case SetNode(n, st, broken) => s.(view := Written(v.(nodes := v.nodes[n := st]), NodeStatus(n, st), broken))
    case Join(c, order) => s.(view := v.(clients := v.clients + {c}, wire := v.wire[c := CatchUp(v, order)]))
    case Leave(c) => s.(view := v.(clients := v.clients - {c}))
  }

  const START := System(View({}, "", "PENDING", map[], map[]), None)

  /** Where a sequence of steps leads, if each of its steps is possible. */
  ghost function Outcome(run: seq<Step>): (r: Option<System>)
    ensures r.Some? ==> WellFormed(r.value.view)
  {
    if run == [] then Some(START)
    else
      var before := Outcome(run[..|run| - 1]);
      if before.Some? && Enabled(before.value, run[|run| - 1]) then Some(Next(before.value, run[|run| - 1])) else None
  }

  ghost predicate IsRun(run: seq<Step>) {
    Outcome(run).Some?
  }

  ghost function StateAfter(run: seq<Step>): System
    requires IsRun(run)
  {
    Outcome(run).value
  }

  /** Log messages in the order they were appended. */
  function Appended(run: seq<Step>): seq<string> {
    if run == [] then []
    else if run[|run| - 1].Append? then Appended(run[..|run| - 1]) + [run[|run| - 1].msg]
    else Appended(run[..|run| - 1])
  }

  /** How many log messages have been broadcast. */
  function Sent(run: seq<Step>): nat {
    if run == [] then 0 else Sent(run[..|run| - 1]) + if run[|run| - 1].SendLog? then 1 else 0
  }

  // ---------- What a client sees ----------

  function Concat(msgs: seq<string>): string {
    if msgs == [] then "" else Concat(msgs[..|msgs| - 1]) + msgs[|msgs| - 1]
  }

  function Text(events: seq<Event>): string {
    if events == [] then ""
    else if events[|events| - 1].Log? then Text(events[..|events| - 1]) + events[|events| - 1].text
    else Text(events[..|events| - 1])
  }

  function NodeView(events: seq<Event>): map<string, string> {
    if events == [] then map[]
    else
      var before := NodeView(events[..|events| - 1]);
      var e := events[|events| - 1];
      if e.NodeStatus? then before[e.node := e.state] else before
  }

  function LastStatus(events: seq<Event>): Option<string> {
    if events == [] then None
    else if events[|events| - 1].Status? then Some(events[|events| - 1].status)
    else LastStatus(events[..|events| - 1])
  }

  lemma Extended(events: seq<Event>, e: Event)
    ensures Text(events + [e]) == if e.Log? then Text(events) + e.text else Text(events)
    ensures NodeView(events + [e]) == if e.NodeStatus? then NodeView(events)[e.node := e.state] else NodeView(events)
    ensures LastStatus(events + [e]) == if e.Status? then Some(e.status) else LastStatus(events)
  {
    assert (events + [e])[..|events|] == events;
  }

  function Restricted(nodes: map<string, string>, order: seq<string>): map<string, string>
    requires forall n | n in order :: n in nodes
  {
    map n | n in order :: nodes[n]
  }

  lemma {:induction false} Replayed(before: seq<Event>, nodes: map<string, string>, order: seq<string>)
    requires NodeView(before) == map[]
    requires forall n | n in order :: n in nodes
    ensures Text(before + Replay(nodes, order)) == Text(before)
    ensures LastStatus(before + Replay(nodes, order)) == LastStatus(before)
    ensures NodeView(before + Replay(nodes, order)) == Restricted(nodes, order)
  {
    if order == [] {
      assert before + Replay(nodes, order) == before;
    } else {
      var init, n := order[..|order| - 1], order[|order| - 1];
      Replayed(before, nodes, init);
      assert before + Replay(nodes, order) == before + Replay(nodes, init) + [NodeStatus(n, nodes[n])];
      Extended(before + Replay(nodes, init), NodeStatus(n, nodes[n]));
      assert order == init + [n];
      assert Restricted(nodes, order) == Restricted(nodes, init)[n := nodes[n]];
    }
  }

  /** A joining client is brought exactly up to date. */
  lemma CaughtUp(v: View, order: seq<string>)
    requires Covers(v.nodes, order)
    ensures Text(CatchUp(v, order)) == v.logs
    ensures NodeView(CatchUp(v, order)) == v.nodes
    ensures LastStatus(CatchUp(v, order)) == Some(v.status)
  {
    var before := LogSoFar(v.logs) + [Status(v.status)];
    Extended(LogSoFar(v.logs), Status(v.status));
    if v.logs != "" {
      Extended([], Log(v.logs));
      assert [] + [Log(v.logs)] == [Log(v.logs)];
    }
    Replayed(before, v.nodes, order);
  }

  // ---------- Node statuses ----------

  ghost predicate NodesAgree(v: View) {
    v.clients <= v.wire.Keys && forall c | c in v.clients :: NodeView(v.wire[c]) == v.nodes
  }

  lemma WrittenAgrees(v: View, e: Event, broken: set<Conn>, nodes: map<string, string>)
    requires NodesAgree(v)
    requires nodes == if e.NodeStatus? then v.nodes[e.node := e.state] else v.nodes
    ensures NodesAgree(Written(v.(nodes := nodes), e, broken))
  {
    forall c | c in v.clients - broken ensures NodeView(v.wire[c] + [e]) == nodes {
      Extended(v.wire[c], e);
    }
  }

  /** In every run, what the statuses a connected client has received add up to is the tracker's map. */
  lemma {:induction false} NodeStatusesAgree(run: seq<Step>)
    requires IsRun(run)
    ensures NodesAgree(StateAfter(run).view)
  {
    if run != [] {
      var init, step := run[..|run| - 1], run[|run| - 1];
      NodeStatusesAgree(init);
      var s := StateAfter(init);
      var v := s.view;
      match step
      case SendLog(broken) => WrittenAgrees(v, Log(s.inFlight.value), broken, v.nodes);
      case SendStatus(st, broken) => WrittenAgrees(v, Status(st), broken, v.nodes);
      case SetNode(n, st, broken) => WrittenAgrees(v, NodeStatus(n, st), broken, v.nodes[n := st]);
      case Join(c, order) => CaughtUp(v, order);
      case _ =>
    }
  }

  // ---------- The log ----------

  lemma ConcatExtended(msgs: seq<string>, m: string)
    ensures Concat(msgs + [m]) == Concat(msgs) + m
  {
    assert (msgs + [m])[..|msgs|] == msgs;
  }

  /** The log is what was appended, and at most its last message is still to be broadcast. */
  lemma {:induction false} LogIsAppended(run: seq<Step>)
    requires IsRun(run)
    ensures var s, msgs := StateAfter(run), Appended(run);
            && s.view.logs == Concat(msgs)
            && |msgs| == Sent(run) + (if s.inFlight.Some? then 1 else 0)
            && (s.inFlight.Some? ==> s.inFlight.value == msgs[|msgs| - 1])
  {
    if run != [] {
      var init, step := run[..|run| - 1], run[|run| - 1];
      LogIsAppended(init);
      if step.Append? {
        ConcatExtended(Appended(init), step.msg);
      }
    }
  }

  lemma {:induction false} AppendedGrows(run: seq<Step>, k: nat)
    requires k <= |run|
    ensures Appended(run[..k]) <= Appended(run) && Sent(run[..k]) <= Sent(run)
    decreases |run|
  {
    if k == |run| {
      assert run[..k] == run;
    } else {
      var init := run[..|run| - 1];
      assert init[..k] == run[..k];
      AppendedGrows(init, k);
    }
  }

  /** A connection joins once, and what it was sent is never forgotten. */
  lemma {:induction false} JoinedOnce(run: seq<Step>, k: nat)
    requires IsRun(run) && k < |run| && run[k].Join?
    ensures run[k].c in StateAfter(run).view.wire
    ensures k < |run| - 1 ==> !(run[|run| - 1].Join? && run[|run| - 1].c == run[k].c)
    decreases |run|
  {
    var init := run[..|run| - 1];
    if k < |run| - 1 {
      JoinedOnce(init, k);
    }
  }

  ghost predicate IsRunTo(run: seq<Step>, k: nat) {
    k <= |run| && IsRun(run[..k])
  }

  lemma {:induction false} PrefixIsRun(run: seq<Step>, k: nat)
    requires IsRun(run) && k <= |run|
    ensures IsRunTo(run, k)
    decreases |run|
  {
    if k == |run| {
      assert run[..k] == run;
    } else {
      var init := run[..|run| - 1];
      assert init[..k] == run[..k];
      PrefixIsRun(init, k);
    }
  }

  /** The exact text of a client that joined at step k and is still connected: all that had been
      appended when it joined, then all that was broadcast since. */
  lemma {:induction false} ClientText(run: seq<Step>, k: nat)
    requires IsRun(run) && k < |run| && run[k].Join?
    requires run[k].c in StateAfter(run).view.clients
    ensures Sent(run[..k]) <= Sent(run) <= |Appended(run)|
    ensures Text(StateAfter(run).view.wire[run[k].c]) ==
            Concat(Appended(run[..k])) + Concat(Appended(run)[Sent(run[..k])..Sent(run)])
    decreases |run|
  {
    LogIsAppended(run);
    AppendedGrows(run, k);
    if k == |run| - 1 {
      TextAtJoin(run);
    } else {
      var init := run[..|run| - 1];
      assert init[..k] == run[..k];
      JoinedOnce(run, k);
      JoinedOnce(init, k);
      ClientText(init, k);
      LogIsAppended(init);
      TextAfterMore(run, run[k].c, Sent(run[..k]), Concat(Appended(run[..k])));
    }
  }

  lemma TextAtJoin(run: seq<Step>)
    requires IsRun(run) && run != [] && run[|run| - 1].Join?
    ensures var init := run[..|run| - 1];
            Text(StateAfter(run).view.wire[run[|run| - 1].c]) == Concat(Appended(init)) + Concat([])
  {
    var init := run[..|run| - 1];
    LogIsAppended(init);
    CaughtUp(StateAfter(init).view, run[|run| - 1].order);
  }

  lemma TextAfterMore(run: seq<Step>, c: Conn, i: nat, start: string)
    requires run != [] && IsRun(run) && c in StateAfter(run).view.clients
    requires c in StateAfter(run[..|run| - 1]).view.clients && i <= Sent(run[..|run| - 1])
    requires Sent(run[..|run| - 1]) <= |Appended(run[..|run| - 1])| && Sent(run) <= |Appended(run)|
    requires Text(StateAfter(run[..|run| - 1]).view.wire[c]) ==
             start + Concat(Appended(run[..|run| - 1])[i..Sent(run[..|run| - 1])])
    ensures Text(StateAfter(run).view.wire[c]) == start + Concat(Appended(run)[i..Sent(run)])
  {
    var init, step := run[..|run| - 1], run[|run| - 1];
    LogIsAppended(init);
    TextStep(StateAfter(init), step, c, Appended(init), i, Sent(init), start);
    if step.Append? {
      HeadKept(Appended(init), step.msg, i, Sent(init));
    }
  }

  lemma HeadKept<T>(s: seq<T>, x: T, i: nat, j: nat)
    requires i <= j <= |s|
    ensures (s + [x])[i..j] == s[i..j]
  {
  }

  lemma ShownNext(s: System, step: Step, c: Conn)
    requires Enabled(s, step) && c in s.view.clients && c in Next(s, step).view.clients
    ensures Text(Next(s, step).view.wire[c]) ==
            if step.SendLog? then Text(s.view.wire[c]) + s.inFlight.value else Text(s.view.wire[c])
    ensures LastStatus(Next(s, step).view.wire[c]) ==
            if step.SendStatus? then Some(step.s) else LastStatus(s.view.wire[c])
  {
    match step
    case SendLog(_) => Extended(s.view.wire[c], Log(s.inFlight.value));
    case SendStatus(st, _) => Extended(s.view.wire[c], Status(st));
    case SetNode(n, st, _) => Extended(s.view.wire[c], NodeStatus(n, st));
    case _ =>
  }

  /** One more step that does not end the connection: `msgs` have been appended, `sent` of them broadcast. */
  lemma TextStep(s: System, step: Step, c: Conn, msgs: seq<string>, i: nat, sent: nat, start: string)
    requires Enabled(s, step) && c in s.view.clients && c in Next(s, step).view.clients
    requires i <= sent <= |msgs| && (step.SendLog? ==> sent < |msgs| && s.inFlight.value == msgs[sent])
    requires Text(s.view.wire[c]) == start + Concat(msgs[i..sent])
    ensures Text(Next(s, step).view.wire[c]) == start + Concat(msgs[i..if step.SendLog? then sent + 1 else sent])
  {
    ShownNext(s, step, c);
    if step.SendLog? {
      ConcatExtended(msgs[i..sent], msgs[sent]);
      assert msgs[i..sent + 1] == msgs[i..sent] + [msgs[sent]];
      Regroup(start, Concat(msgs[i..sent]), msgs[sent]);
    }
  }

  lemma {:induction false} ConcatSplit(a: seq<string>, b: seq<string>)
    ensures Concat(a + b) == Concat(a) + Concat(b)
  {
    if b == [] {
      assert a + b == a;
    } else {
      assert (a + b)[..|a + b| - 1] == a + b[..|b| - 1];
      ConcatSplit(a, b[..|b| - 1]);
    }
  }

  lemma TailSplit<T>(s: seq<T>, i: nat, j: nat)
    requires i <= j <= |s|
    ensures s[i..] == s[i..j] + s[j..]
  {
  }

  lemma TailConcat(msgs: seq<string>, i: nat, j: nat)
    requires i <= j <= |msgs|
    ensures Concat(msgs[i..]) == Concat(msgs[i..j]) + Concat(msgs[j..])
  {
    TailSplit(msgs, i, j);
    ConcatSplit(msgs[i..j], msgs[j..]);
  }

  lemma OneMessage(m: string)
    ensures Concat([m]) == m
  {
    ConcatExtended([], m);
    assert [] + [m] == [m];
  }

  /** What a message in flight adds to the text of a client that joins now. */
  ghost function Repeated(s: System): string {
    if s.inFlight.Some? then s.inFlight.value else ""
  }

  /** Once the forwarder is idle, a connected client has the whole log in order, with the message in
      flight when it joined, and nothing else, twice. */
  lemma IdleClientText(run: seq<Step>, k: nat)
    requires IsRun(run) && k < |run| && run[k].Join?
    requires run[k].c in StateAfter(run).view.clients && StateAfter(run).inFlight.None?
    ensures IsRun(run[..k]) && StateAfter(run[..k]).view.logs <= StateAfter(run).view.logs
    ensures Text(StateAfter(run).view.wire[run[k].c]) ==
            StateAfter(run[..k]).view.logs + Repeated(StateAfter(run[..k]))
            + StateAfter(run).view.logs[|StateAfter(run[..k]).view.logs|..]
  {
    PrefixIsRun(run, k);
    ClientText(run, k);
    LogIsAppended(run);
    LogIsAppended(run[..k]);
    AppendedGrows(run, k);
    OverlapRepeats(Appended(run), Appended(run[..k]), Sent(run[..k]), Repeated(StateAfter(run[..k])));
  }

  lemma OverlapRepeats(msgs: seq<string>, known: seq<string>, i: nat, last: string)
    requires known <= msgs && i <= |known| <= i + 1
    requires if i < |known| then last == known[i] else last == ""
    ensures Concat(known) <= Concat(msgs)
    ensures Concat(known) + Concat(msgs[i..|msgs|]) == Concat(known) + last + Concat(msgs)[|Concat(known)|..]
  {
    var j := |known|;
    Halves(msgs, known);
    OverlapText(msgs, known, i, last);
    DropPrefix(Concat(msgs), Concat(known), Concat(msgs[j..]));
    Regroup(Concat(known), last, Concat(msgs[j..]));
  }

  lemma Halves(msgs: seq<string>, known: seq<string>)
    requires known <= msgs
    ensures Concat(msgs) == Concat(known) + Concat(msgs[|known|..])
  {
    TailConcat(msgs, 0, |known|);
    assert msgs[0..] == msgs && msgs[0..|known|] == known;
  }

  lemma OverlapText(msgs: seq<string>, known: seq<string>, i: nat, last: string)
    requires known <= msgs && i <= |known| <= i + 1
    requires if i < |known| then last == known[i] else last == ""
    ensures Concat(msgs[i..|msgs|]) == last + Concat(msgs[|known|..])
  {
    TailConcat(msgs, i, |known|);
    assert msgs[i..|msgs|] == msgs[i..];
    if i < |known| {
      assert msgs[i..|known|] == [last];
      OneMessage(last);
    }
  }

  lemma DropPrefix(whole: string, a: string, b: string)
    requires whole == a + b
    ensures a <= whole && whole[|a|..] == b
  {
  }

  /** A client's text is the log itself exactly when nothing was in flight as it joined. */
  lemma RepeatsExactlyWhen(run: seq<Step>, k: nat)
    requires IsRun(run) && k < |run| && run[k].Join?
    requires run[k].c in StateAfter(run).view.clients && StateAfter(run).inFlight.None?
    ensures IsRun(run[..k])
    ensures Text(StateAfter(run).view.wire[run[k].c]) == StateAfter(run).view.logs <==>
            StateAfter(run[..k]).inFlight in {None, Some("")}
  {
    IdleClientText(run, k);
    var before, after := StateAfter(run[..k]).view.logs, StateAfter(run).view.logs;
    assert after == before + after[|before|..];
  }

  // ---------- The run's status ----------

  /** The status stored after a run's steps: the last one set. */
  function Stored(run: seq<Step>): string {
    if run == [] then "PENDING"
    else if run[|run| - 1].SetStatus? then run[|run| - 1].s
    else Stored(run[..|run| - 1])
  }

  lemma {:induction false} StoredIsLastSet(run: seq<Step>)
    requires IsRun(run)
    ensures StateAfter(run).view.status == Stored(run)
  {
    if run != [] {
      StoredIsLastSet(run[..|run| - 1]);
    }
  }

  ghost predicate AllShow(v: View, status: string) {
    v.clients <= v.wire.Keys && forall c | c in v.clients :: LastStatus(v.wire[c]) == Some(status)
  }

  lemma StatusKept(s: System, step: Step, status: string)
    requires Enabled(s, step) && s.view.status == status && AllShow(s.view, status)
    requires !step.SetStatus? && !step.SendStatus?
    ensures AllShow(Next(s, step).view, status) && Next(s, step).view.status == status
  {
    var v := s.view;
    match step
    case SendLog(_) =>
      forall c | c in v.clients { Extended(v.wire[c], Log(s.inFlight.value)); }
    case SetNode(n, st, _) =>
      forall c | c in v.clients { Extended(v.wire[c], NodeStatus(n, st)); }
    case Join(c, order) => CaughtUp(v, order);
    case _ =>
  }

  /** Once a status has been both stored and broadcast, every client shows it, whenever it joined,
      until the next status step. */
  lemma {:induction false} StoredStatusReachesAll(run: seq<Step>, k: nat, status: string)
    requires IsRun(run) && k < |run| && run[k].SendStatus? && run[k].s == status
    requires Stored(run[..k]) == status
    requires forall m | k < m < |run| :: !run[m].SetStatus? && !run[m].SendStatus?
    ensures AllShow(StateAfter(run).view, status) && StateAfter(run).view.status == status
    decreases |run|
  {
    var init := run[..|run| - 1];
    var v := StateAfter(init).view;
    if k == |run| - 1 {
      StoredIsLastSet(init);
      forall c | c in v.clients { Extended(v.wire[c], Status(status)); }
    } else {
      assert init[..k] == run[..k];
      StoredStatusReachesAll(init, k, status);
      StatusKept(StateAfter(init), run[|run| - 1], status);
    }
  }

  /** The last status broadcast after step k. */
  function SentSince(run: seq<Step>, k: nat): Option<string>
    requires k < |run|
    decreases |run|
  {
    if k == |run| - 1 then None
    else if run[|run| - 1].SendStatus? then Some(run[|run| - 1].s)
    else SentSince(run[..|run| - 1], k)
  }

  /** What a client that joined at step k was last told: the last status broadcast since, or else
      the one stored as it joined. */
  function Told(run: seq<Step>, k: nat): string
    requires k < |run|
  {
    if SentSince(run, k).Some? then SentSince(run, k).value else Stored(run[..k])
  }

  lemma ToldNext(run: seq<Step>, k: nat)
    requires k < |run| - 1
    ensures Told(run, k) == if run[|run| - 1].SendStatus? then run[|run| - 1].s else Told(run[..|run| - 1], k)
  {
    assert run[..|run| - 1][..k] == run[..k];
  }

  /** In every run, a connected client shows what it was last told, and the tracker the last status set. */
  lemma {:induction false} ShowsWhatItWasTold(run: seq<Step>, k: nat)
    requires IsRun(run) && k < |run| && run[k].Join?
    requires run[k].c in StateAfter(run).view.clients
    ensures LastStatus(StateAfter(run).view.wire[run[k].c]) == Some(Told(run, k))
    ensures StateAfter(run).view.status == Stored(run)
    decreases |run|
  {
    StoredIsLastSet(run);
    var init, step := run[..|run| - 1], run[|run| - 1];
    if k == |run| - 1 {
      StoredIsLastSet(init);
      CaughtUp(StateAfter(init).view, step.order);
    } else {
      JoinedOnce(run, k);
      ShowsWhatItWasTold(init, k);
      ShownNext(StateAfter(init), step, run[k].c);
      ToldNext(run, k);
    }
  }

  /** What was sent since an earlier step, in terms of a later one. */
  lemma {:induction false} SentSinceEither(run: seq<Step>, j: nat, k: nat)
    requires j < k < |run| && !run[k].SendStatus?
    ensures SentSince(run, j) == if SentSince(run, k).Some? then SentSince(run, k) else SentSince(run[..k], j)
    decreases |run|
  {
    var init := run[..|run| - 1];
    if k < |run| - 1 {
      SentSinceEither(init, j, k);
      assert init[..k] == run[..k];
    }
  }

  /** A client shows the stored status exactly when that is what it was last told; two clients agree
      exactly when a status was broadcast after the later one joined, or the earlier one showed the
      stored status at that moment. */
  lemma ViewersAgreeExactlyWhen(run: seq<Step>, j: nat, k: nat)
    requires IsRun(run) && j < k < |run| && run[j].Join? && run[k].Join?
    requires run[j].c in StateAfter(run).view.clients && run[k].c in StateAfter(run).view.clients
    ensures var v := StateAfter(run).view;
            && (LastStatus(v.wire[run[j].c]) == Some(v.status) <==> Told(run, j) == Stored(run))
            && (LastStatus(v.wire[run[j].c]) == LastStatus(v.wire[run[k].c]) <==>
                SentSince(run, k).Some? || Told(run[..k], j) == Stored(run[..k]))
  {
    ShowsWhatItWasTold(run, j);
    ShowsWhatItWasTold(run, k);
    SentSinceEither(run, j, k);
    assert run[..k][..j] == run[..j];
  }

  /** A deployment watched by client 0 from before its cleanup and by client 1 from after. */
  function CleanupRun(): seq<Step> {
    [SetStatus("RUNNING"), SendStatus("RUNNING", {}), Join(0, []), SendStatus("CLEANUP", {}), Join(1, [])]
  }

  /** "CLEANUP" is broadcast without being stored: in a real run, viewers from before and after it disagree. */
  lemma CleanupSplitsViewers()
    ensures IsRun(CleanupRun())
    ensures var v := StateAfter(CleanupRun()).view;
            && v.clients == {0, 1} && v.status == "RUNNING"
            && LastStatus(v.wire[0]) == Some("CLEANUP") && LastStatus(v.wire[1]) == Some("RUNNING")
  {
    var run := CleanupRun();
    var run1, run2, run3, run4 := run[..1], run[..2], run[..3], run[..4];
    assert run1[..0] == [] && run2[..1] == run1 && run3[..2] == run2 && run4[..3] == run3 && run[..4] == run4;
    assert Outcome(run1) == Some(Next(START, run[0]));
    assert Outcome(run2) == Some(Next(Outcome(run1).value, run[1]));
    assert Outcome(run3) == Some(Next(Outcome(run2).value, run[2]));
    assert Outcome(run4) == Some(Next(Outcome(run3).value, run[3]));
    assert Outcome(run) == Some(Next(Outcome(run4).value, run[4]));
    ShowsWhatItWasTold(run, 2);
    ShowsWhatItWasTold(run, 4);
    ToldNext(run, 2);
  }

  /** "CLEANUP" is broadcast without being stored: viewers from before and after it disagree. */
  lemma BroadcastOnlySplitsViewers(s: System, status: string, early: Conn, late: Conn, order: seq<string>)
    requires WellFormed(s.view) && early in s.view.clients && late !in s.view.wire && Covers(s.view.nodes, order)
    ensures var after := Next(Next(s, SendStatus(status, {})), Join(late, order)).view;
            && LastStatus(after.wire[early]) == Some(status)
            && LastStatus(after.wire[late]) == Some(s.view.status)
  {
    Extended(s.view.wire[early], Status(status));
    CaughtUp(Next(s, SendStatus(status, {})).view, order);
  }
}
