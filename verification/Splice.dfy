/** `splicePipe`: two copies side by side, given up as soon as one of them ends. */
module Splice {
  import opened Common
  import opened Streams

  // ---------- One direction ----------

  /** `rest` is what the source has yet to give, `held` is read but not written, `sink` is delivered. */
  datatype Direction = Direction(rest: seq<byte>, held: seq<byte>, sink: seq<byte>, ended: bool)

  /** What has not been delivered. */
  function Left(d: Direction): seq<byte> {
    d.held + d.rest
  }

  /** A turn of `io.Copy`: a read that gives `n` bytes, a read that finds the source ended, or a write
      that takes `n` bytes and has failed if that is not all of them. */
  datatype Turn = Fetch(n: nat) | SourceEnds | Flush(n: nat)

  predicate CanTurn(d: Direction, t: Turn) {
    && !d.ended
    && match t
       case Fetch(n) => d.held == [] && 1 <= n <= |d.rest|
       case SourceEnds => d.held == [] && d.rest == []
       case Flush(n) => d.held != [] && n <= |d.held|
  }

  function Turned(d: Direction, t: Turn): Direction
    requires CanTurn(d, t)
  {
    match t
    case Fetch(n) => d.(held := d.rest[..n], rest := d.rest[n..])
    case SourceEnds => d.(ended := true)
    case Flush(n) => d.(sink := d.sink + d.held[..n], held := d.held[n..], ended := n < |d.held|)
  }

  // ---------- Both directions ----------

  datatype Pair = Pair(forth: Direction, back: Direction, closed: bool)

  /** Once a copy has ended both ends are closed; until that has happened the other copy may go on. */
  datatype Step = Forth(turn: Turn) | Back(turn: Turn) | Close

  predicate CanStep(p: Pair, s: Step) {
    && !p.closed
    && match s
       case Forth(t) => CanTurn(p.forth, t)
       case Back(t) => CanTurn(p.back, t)
       case Close => p.forth.ended || p.back.ended
  }

  function Stepped(p: Pair, s: Step): Pair
    requires CanStep(p, s)
  {
    match s
    case Forth(t) => p.(forth := Turned(p.forth, t))
    case Back(t) => p.(back := Turned(p.back, t))
    case Close => p.(closed := true)
  }

  /** Where an interleaving leads, if each of its steps is possible. */
  function Outcome(start: Pair, run: seq<Step>): Option<Pair> {
    if run == [] then Some(start)
    else
      var before := Outcome(start, run[..|run| - 1]);
      if before.Some? && CanStep(before.value, run[|run| - 1])
        then Some(Stepped(before.value, run[|run| - 1])) else None
  }

  predicate Untouched(d: Direction) {
    d.held == [] && !d.ended
  }

  predicate Ready(p: Pair) {
    Untouched(p.forth) && Untouched(p.back) && !p.closed
  }

  // ---------- The copies ----------

  /** A sink takes some of what it is given; less than all is a failed write. */
  class Sink {
    var data: seq<byte>

    constructor ()
      ensures data == []
    {
      data := [];
    }

    method Write(p: seq<byte>) returns (n: nat)
      modifies this
      ensures n <= |p| && data == old(data) + p[..n]
    {
      n :| 0 <= n <= |p|;
      data := data + p[..n];
    }
  }

  class Copier {
    const from: WsAdapter
    const to: Sink
    const buffer: array<byte>
    var held: seq<byte>
    var ended: bool

    constructor (from: WsAdapter, to: Sink)
      ensures this.from == from && this.to == to && fresh(buffer)
      ensures Valid() && Untouched(Abs())
      ensures Abs() == Direction(from.Remaining(), [], to.data, false)
    {
      this.from, this.to, buffer, held, ended := from, to, new byte[32768], [], false;
    }

    ghost predicate Valid() {
      buffer.Length > 0
    }

    ghost function Abs(): Direction
      reads this, from, to
    {
      Direction(from.Remaining(), held, to.data, ended)
    }

    ghost function Footprint(): set<object> {
      {this, from, to, buffer}
    }

    /** One turn of the copy: write what is held, or read more. */
    method Turn() returns (ghost t: Turn)
      requires Valid() && !ended
      modifies Footprint()
      ensures CanTurn(old(Abs()), t) && Abs() == Turned(old(Abs()), t)
    {
      if held != [] {
        var n := to.Write(held);
        t := Flush(n);
        ended := n < |held|;
        held := held[n..];
      } else {
        var n, ok := from.Read(buffer);
        if ok {
          held := buffer[..n];
          t := Fetch(n);
        } else {
          ended := true;
          t := SourceEnds;
        }
      }
    }
  }

  ghost predicate Separate(forth: Copier, back: Copier) {
    forth.Footprint() !! back.Footprint() && forth.Valid() && back.Valid()
  }

  ghost function Work(d: Direction): nat {
    2 * |d.rest| + |d.held| + if d.ended then 0 else 1
  }

  lemma TurnsAreWork(d: Direction, t: Turn)
    requires CanTurn(d, t)
    ensures Work(Turned(d, t)) < Work(d)
  {
  }

  lemma RunExtended(start: Pair, run: seq<Step>, p: Pair, s: Step)
    requires Outcome(start, run) == Some(p) && CanStep(p, s)
    ensures Outcome(start, run + [s]) == Some(Stepped(p, s))
  {
    assert (run + [s])[..|run|] == run;
  }

  method TakeTurn(forth: Copier, back: Copier, first: bool) returns (ghost s: Step)
    requires Separate(forth, back) && if first then !forth.ended else !back.ended
    modifies forth.Footprint(), back.Footprint()
    ensures var p := old(Pair(forth.Abs(), back.Abs(), false));
            CanStep(p, s) && Pair(forth.Abs(), back.Abs(), false) == Stepped(p, s)
    ensures Work(forth.Abs()) + Work(back.Abs()) < old(Work(forth.Abs()) + Work(back.Abs()))
  {
    if first {
      ghost var d := forth.Abs();
      ghost var t := forth.Turn();
      TurnsAreWork(d, t);
      s := Forth(t);
    } else {
      ghost var d := back.Abs();
      ghost var t := back.Turn();
      TurnsAreWork(d, t);
      s := Back(t);
    }
  }

  /** Whatever the scheduler does, what happens is a run that ends closed. */
  method SplicePipe(forth: Copier, back: Copier) returns (ghost run: seq<Step>)
    requires Separate(forth, back) && Ready(Pair(forth.Abs(), back.Abs(), false))
    modifies forth.Footprint(), back.Footprint()
    ensures Outcome(old(Pair(forth.Abs(), back.Abs(), false)), run) == Some(Pair(forth.Abs(), back.Abs(), true))
  {
    ghost var start := Pair(forth.Abs(), back.Abs(), false);
    run := [];
    var more := true;
    while more
      invariant Outcome(start, run) == Some(Pair(forth.Abs(), back.Abs(), false))
      invariant if more then !(forth.ended && back.ended) else forth.ended || back.ended
      decreases Work(forth.Abs()) + Work(back.Abs()), more
    {
      var either: bool := *;
      var first := back.ended || (either && !forth.ended);
      ghost var p := Pair(forth.Abs(), back.Abs(), false);
      ghost var s := TakeTurn(forth, back, first);
      RunExtended(start, run, p, s);
      run := run + [s];
      var stop: bool := *;
      more := !(forth.ended && back.ended) && !(stop && (forth.ended || back.ended));
    }
    RunExtended(start, run, Pair(forth.Abs(), back.Abs(), false), Close);
    run := run + [Close];
  }

  // ---------- What a splice delivers ----------

  lemma TurnConserves(d: Direction, t: Turn)
    requires CanTurn(d, t)
    ensures Turned(d, t).sink + Left(Turned(d, t)) == d.sink + Left(d)
    ensures d.sink <= Turned(d, t).sink
  {
  }

  /** Over every interleaving, in each direction, what was delivered and what is left are the original
      stream: no byte is added, changed or moved. */
  lemma {:induction false} BytesConserved(start: Pair, run: seq<Step>)
    requires Outcome(start, run).Some?
    ensures var p := Outcome(start, run).value;
      && start.forth.sink <= p.forth.sink && p.forth.sink + Left(p.forth) == start.forth.sink + Left(start.forth)
      && start.back.sink <= p.back.sink && p.back.sink + Left(p.back) == start.back.sink + Left(start.back)
  {
    if run != [] {
      var init, s := run[..|run| - 1], run[|run| - 1];
      BytesConserved(start, init);
      var p := Outcome(start, init).value;
      match s
      case Forth(t) => TurnConserves(p.forth, t);
      case Back(t) => TurnConserves(p.back, t);
      case Close =>
    }
  }

  /** All of the stream has arrived. */
  predicate Whole(was: Direction, now: Direction) {
    now.sink == was.sink + Left(was)
  }

  /** At any moment, and so as the splice closes, a direction is delivered whole exactly when nothing
      of it is left. */
  lemma WholeExactlyWhen(start: Pair, run: seq<Step>)
    requires Outcome(start, run).Some?
    ensures var p := Outcome(start, run).value;
      && (Whole(start.forth, p.forth) <==> Left(p.forth) == [])
      && (Whole(start.back, p.back) <==> Left(p.back) == [])
  {
    BytesConserved(start, run);
  }

  /** No write failed. */
  predicate Healthy(run: seq<Step>, start: Pair)
    requires Outcome(start, run).Some?
  {
    run == [] ||
    (&& Healthy(run[..|run| - 1], start)
     && var p := Outcome(start, run[..|run| - 1]).value;
        match run[|run| - 1]
        case Forth(Flush(n)) => n == |p.forth.held|
        case Back(Flush(n)) => n == |p.back.held|
        case _ => true)
  }

  predicate EndsClean(d: Direction) {
    d.ended ==> Left(d) == []
  }

  lemma {:induction false} HealthyEndsClean(start: Pair, run: seq<Step>)
    requires Ready(start) && Outcome(start, run).Some? && Healthy(run, start)
    ensures var p := Outcome(start, run).value;
            EndsClean(p.forth) && EndsClean(p.back) && (p.closed ==> p.forth.ended || p.back.ended)
  {
    if run != [] {
      HealthyEndsClean(start, run[..|run| - 1]);
    }
  }

  /** Without failed writes, the direction that ends first has always been delivered whole; the other one
      was cut off where it stood. */
  lemma FirstToEndIsWhole(start: Pair, run: seq<Step>)
    requires Ready(start) && Outcome(start, run).Some? && Healthy(run, start) && Outcome(start, run).value.closed
    ensures var p := Outcome(start, run).value;
            Whole(start.forth, p.forth) || Whole(start.back, p.back)
  {
    HealthyEndsClean(start, run);
    WholeExactlyWhen(start, run);
  }

  /** If the ends are closed as soon as a turn has ended one copy, the other direction is delivered whole
      exactly when that turn left nothing of it. */
  lemma CutOffExactlyWhen(start: Pair, before: seq<Step>, s: Step)
    requires Outcome(start, before + [s]).Some? && !Outcome(start, before + [s]).value.closed
    requires var p := Outcome(start, before + [s]).value; p.forth.ended || p.back.ended
    ensures Outcome(start, before + [s] + [Close]).Some?
    ensures var p, end := Outcome(start, before + [s]).value, Outcome(start, before + [s] + [Close]).value;
      && (Whole(start.forth, end.forth) <==> Left(p.forth) == [])
      && (Whole(start.back, end.back) <==> Left(p.back) == [])
  {
    RunExtended(start, before + [s], Outcome(start, before + [s]).value, Close);
    WholeExactlyWhen(start, before + [s]);
  }

  function Side(p: Pair, forth: bool): Direction {
    if forth then p.forth else p.back
  }

  function On(forth: bool, t: Turn): Step {
    if forth then Forth(t) else Back(t)
  }

  predicate TakesAll(d: Direction, t: Turn) {
    t.Flush? ==> t.n == |d.held|
  }

  lemma HealthyTurn(start: Pair, run: seq<Step>, forth: bool, t: Turn)
    requires Outcome(start, run).Some? && Healthy(run, start) && !Outcome(start, run).value.closed
    requires CanTurn(Side(Outcome(start, run).value, forth), t) && TakesAll(Side(Outcome(start, run).value, forth), t)
    ensures var more := run + [On(forth, t)];
      && Outcome(start, more).Some? && Healthy(more, start) && !Outcome(start, more).value.closed
      && Side(Outcome(start, more).value, forth) == Turned(Side(Outcome(start, run).value, forth), t)
      && Side(Outcome(start, more).value, !forth) == Side(Outcome(start, run).value, !forth)
  {
    var more := run + [On(forth, t)];
    RunExtended(start, run, Outcome(start, run).value, On(forth, t));
    assert more[..|more| - 1] == run;
  }

  lemma HealthyClose(start: Pair, run: seq<Step>)
    requires Outcome(start, run).Some? && Healthy(run, start) && CanStep(Outcome(start, run).value, Close)
    ensures Outcome(start, run + [Close]) == Some(Outcome(start, run).value.(closed := true))
    ensures Healthy(run + [Close], start)
  {
    RunExtended(start, run, Outcome(start, run).value, Close);
    assert (run + [Close])[..|run + [Close]| - 1] == run;
  }

  /** One copy runs to its end while the other is not scheduled. */
  lemma RunsAlone(start: Pair, run: seq<Step>, forth: bool) returns (more: seq<Step>)
    requires Outcome(start, run).Some? && Healthy(run, start) && !Outcome(start, run).value.closed
    requires Untouched(Side(Outcome(start, run).value, forth))
    ensures Outcome(start, more).Some? && Healthy(more, start) && !Outcome(start, more).value.closed
    ensures var p, q := Outcome(start, run).value, Outcome(start, more).value;
      && Side(q, !forth) == Side(p, !forth)
      && Side(q, forth) == Direction([], [], Side(p, forth).sink + Side(p, forth).rest, true)
  {
    var d := Side(Outcome(start, run).value, forth);
    more := run;
    if d.rest != [] {
      HealthyTurn(start, more, forth, Fetch(|d.rest|));
      more := more + [On(forth, Fetch(|d.rest|))];
      HealthyTurn(start, more, forth, Flush(|d.rest|));
      more := more + [On(forth, Flush(|d.rest|))];
    }
    HealthyTurn(start, more, forth, SourceEnds);
    more := more + [On(forth, SourceEnds)];
  }

  /** Some schedule loses bytes of this direction although no write fails. */
  ghost predicate MayLose(start: Pair, forth: bool) {
    exists run ::
      && Outcome(start, run).Some? && Healthy(run, start) && Outcome(start, run).value.closed
      && !Whole(Side(start, forth), Side(Outcome(start, run).value, forth))
  }

  /** Whatever there is to deliver may be lost: a direction is safe from the other one's end exactly when
      it carries nothing at all. */
  lemma MayLoseExactlyWhen(start: Pair, forth: bool)
    requires Ready(start)
    ensures MayLose(start, forth) <==> Side(start, forth).rest != []
  {
    if Side(start, forth).rest != [] {
      var run := RunsAlone(start, [], !forth);
      HealthyClose(start, run);
      WholeExactlyWhen(start, run + [Close]);
      assert !Whole(Side(start, forth), Side(Outcome(start, run + [Close]).value, forth));
    } else if MayLose(start, forth) {
      var run :| Outcome(start, run).Some? && Healthy(run, start) && Outcome(start, run).value.closed
        && !Whole(Side(start, forth), Side(Outcome(start, run).value, forth));
      BytesConserved(start, run);
      assert false;
    }
  }

  /** It is a matter of scheduling only: some run delivers both directions whole. */
  lemma BothMayArrive(start: Pair) returns (run: seq<Step>)
    requires Ready(start)
    ensures Outcome(start, run).Some? && Healthy(run, start) && Outcome(start, run).value.closed
    ensures var p := Outcome(start, run).value; Whole(start.forth, p.forth) && Whole(start.back, p.back)
  {
    run := RunsAlone(start, [], true);
    run := RunsAlone(start, run, false);
    HealthyClose(start, run);
    run := run + [Close];
    WholeExactlyWhen(start, run);
  }

  /** Standard input at its end, a reply on its way: the proxy exits and the whole reply is lost. */
  lemma EmptyInputLosesReply(reply: seq<byte>)
    requires reply != []
    ensures var start := Pair(Direction([], [], [], false), Direction(reply, [], [], false), false);
      var p := Outcome(start, [Forth(SourceEnds), Close]);
      p.Some? && p.value.closed && p.value.back.sink == [] && Left(p.value.back) == reply
  {
    var start := Pair(Direction([], [], [], false), Direction(reply, [], [], false), false);
    RunExtended(start, [], start, Forth(SourceEnds));
    RunExtended(start, [] + [Forth(SourceEnds)], Stepped(start, Forth(SourceEnds)), Close);
    assert [] + [Forth(SourceEnds)] + [Close] == [Forth(SourceEnds), Close];
  }

  // ---------- The agent's side ----------

  lemma HeaderThenRest(header: seq<byte>, rest: seq<byte>, before: seq<byte>, after: seq<byte>, left: seq<byte>)
    requires before <= after && before + rest == after + left
    ensures after == before + after[|before|..]
    ensures header + [NEWLINE] + rest == header + [NEWLINE] + (after[|before|..] + left)
  {
    assert after == before + after[|before|..];
    Regroup(before, after[|before|..], left);
    assert (before + rest)[|before|..] == rest;
    assert (before + (after[|before|..] + left))[|before|..] == after[|before|..] + left;
  }

  /** The header line is taken off the stream, and the reply goes ahead of what comes back. */
  method Greet(from: WsAdapter, to: Sink, reply: seq<byte>) returns (header: seq<byte>, ok: bool)
    modifies from, to
    ensures ok ==> FirstLine(old(from.Remaining())) == Some((header, from.Remaining()))
    ensures ok ==> to.data == old(to.data) + (reply + [NEWLINE])
  {
    header, ok := ReadLine(from);
    if ok {
      var n := to.Write(reply + [NEWLINE]);
      ok := n == |reply| + 1;
    }
  }

  /** The splice in terms of what was copied and what is left. */
  method SpliceRest(forth: Copier, back: Copier) returns (ghost copied: seq<byte>, ghost run: seq<Step>)
    requires Separate(forth, back) && Ready(Pair(forth.Abs(), back.Abs(), false))
    modifies forth.Footprint(), back.Footprint()
    ensures forth.to.data == old(forth.to.data) + copied
    ensures forall header ::
            header + [NEWLINE] + old(forth.from.Remaining()) == header + [NEWLINE] + (copied + Left(forth.Abs()))
    ensures old(back.to.data) + old(back.from.Remaining()) == back.to.data + Left(back.Abs())
  {
    ghost var start := Pair(forth.Abs(), back.Abs(), false);
    run := SplicePipe(forth, back);
    BytesConserved(start, run);
    copied := forth.to.data[|start.forth.sink|..];
    forall header
      ensures header + [NEWLINE] + start.forth.rest == header + [NEWLINE] + (copied + Left(forth.Abs()))
    {
      HeaderThenRest(header, start.forth.rest, start.forth.sink, forth.to.data, Left(forth.Abs()));
    }
  }

  /** Nothing of the stream is consumed twice or skipped between the header and the splice, and what comes
      back follows the reply. */
  method HandleAgentStream(forth: Copier, back: Copier, accepted: bool, reply: seq<byte>)
    returns (header: seq<byte>, spliced: bool, ghost copied: seq<byte>, ghost run: seq<Step>)
    requires Separate(forth, back) && Ready(Pair(forth.Abs(), back.Abs(), false))
    modifies forth.Footprint(), back.Footprint()
    ensures spliced ==> accepted && forth.to.data == old(forth.to.data) + copied
    ensures spliced ==> old(forth.from.Remaining()) == header + [NEWLINE] + (copied + Left(forth.Abs()))
    ensures spliced ==>
              old(back.to.data) + (reply + [NEWLINE]) + old(back.from.Remaining()) == back.to.data + Left(back.Abs())
  {
    copied, run := [], [];
    FirstLineSplits(forth.from.Remaining());
    header, spliced := Greet(forth.from, back.to, reply);
    spliced := spliced && accepted;
    if spliced {
      copied, run := SpliceRest(forth, back);
    }
  }
}
