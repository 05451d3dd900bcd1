/** The byte streams of the sandbox agent: a WebSocket read as a stream, line framing, and the
    reconnect delay. */
module Streams {
  import opened Common

  newtype byte = x: int | 0 <= x < 0x100

  const NEWLINE: byte := 10

  // ---------- What a WebSocket delivers ----------

  /** A message of data frames (RFC 6455, section 5.6); an incomplete one is cut off by the end of the connection. */
  datatype Message = Message(binary: bool, payload: seq<byte>, complete: bool)

  /** Bytes of the binary messages up to where the connection ends. */
  function Payload(queue: seq<Message>): seq<byte> {
    if queue == [] then []
    else
      (if queue[0].binary then queue[0].payload else []) + if queue[0].complete then Payload(queue[1..]) else []
  }

  /** The unread part of the message being read. */
  datatype Reader = Reader(rest: seq<byte>, complete: bool)

  class WsAdapter {
    var queue: seq<Message>
    var reader: Option<Reader>

    constructor (queue: seq<Message>)
      ensures Remaining() == Payload(queue)
    {
      this.queue, reader := queue, None;
    }

    /** All the bytes that reads have yet to return. */
    ghost function Remaining(): seq<byte>
      reads this
    {
      if reader.None? then Payload(queue)
      else reader.value.rest + if reader.value.complete then Payload(queue) else []
    }

    /** The next message, or an error once the connection has ended. */
    method NextReader() returns (m: Option<Message>)
      requires reader.None?
      modifies this`queue
      ensures m.None? ==> Payload(old(queue)) == [] && Payload(queue) == []
      ensures m.Some? ==> |queue| < |old(queue)|
      ensures m.Some? && !m.value.binary ==> Payload(old(queue)) == Payload(queue)
      ensures m.Some? && m.value.binary ==>
              Payload(old(queue)) == m.value.payload + if m.value.complete then Payload(queue) else []
    {
      if |queue| == 0 {
        return None;
      }
      m := Some(queue[0]);
      // What follows a cut-off text message is the end of the connection.
      queue := if !queue[0].binary && !queue[0].complete then [] else queue[1..];
    }

    /** A read returns some of the bytes at hand, as many as it likes but at least one. */
    method ReadSome(p: array<byte>) returns (n: nat)
      requires p.Length > 0 && reader.Some?
      modifies this`reader, p
      ensures reader.Some? && reader.value.complete == old(reader).value.complete
      ensures n <= p.Length && (n == 0 ==> reader.value.rest == [])
      ensures old(reader).value.rest == p[..n] + reader.value.rest
      ensures p[n..] == old(p[n..])
    {
      var rest := reader.value.rest;
      n := 0;
      if rest != [] {
        assert 1 <= 1 <= p.Length && 1 <= |rest|;
        n :| 1 <= n <= p.Length && n <= |rest|;
      }
      forall i | 0 <= i < n {
        p[i] := rest[i];
      }
      reader := Some(Reader(rest[n..], reader.value.complete));
    }

    /** Moves on to the next message, which is skipped if it is not binary. */
    method OpenNext() returns (ok: bool)
      requires reader.None?
      modifies this
      ensures Remaining() == old(Remaining())
      ensures if ok then |queue| < |old(queue)| else reader.None? && Remaining() == []
    {
      var m := NextReader();
      ok := m.Some?;
      if ok && m.value.binary {
        reader := Some(Reader(m.value.payload, m.value.complete));
      }
    }

    /** Messages of any kind and size look like one stream: a read that succeeds returns the bytes that
        come next, and a read fails only when there are none left. */
    method Read(p: array<byte>) returns (n: nat, ok: bool)
      requires p.Length > 0
      modifies this, p
      ensures n <= p.Length && (ok <==> n > 0)
      ensures ok ==> old(Remaining()) == p[..n] + Remaining()
      ensures !ok ==> old(Remaining()) == [] && Remaining() == []
      ensures p[n..] == old(p[n..])
    {
      while true
        invariant Remaining() == old(Remaining()) && p[..] == old(p[..])
        decreases |queue|, if reader.Some? then 1 else 0
      {
        if reader.None? {
          var found := OpenNext();
          if !found {
            return 0, false;
          }
          if reader.None? {
            continue;
          }
        }
        ghost var later := if reader.value.complete then Payload(queue) else [];
        n := ReadSome(p);
        Regroup(p[..n], reader.value.rest, later);
        if n > 0 {
          return n, true;
        }
        if !reader.value.complete {
          return 0, false;
        }
        reader := None;
      }
    }
  }

  /** A sequence of reads into buffers of any sizes, until one fails. */
  method ReadAll(c: WsAdapter, sizes: seq<nat>) returns (got: seq<byte>)
    requires forall s | s in sizes :: s > 0
    modifies c
    ensures old(c.Remaining()) == got + c.Remaining()
    ensures got <= old(c.Remaining())
    ensures |sizes| >= 1 && old(c.Remaining()) != [] ==> got != []
  {
    got := [];
    var k := 0;
    while k < |sizes|
      invariant 0 <= k <= |sizes|
      invariant old(c.Remaining()) == got + c.Remaining()
      invariant k >= 1 && old(c.Remaining()) != [] ==> got != []
    {
      assert sizes[k] in sizes;
      var p := new byte[sizes[k]];
      var n, ok := c.Read(p);
      if !ok {
        return;
      }
      got := got + p[..n];
      k := k + 1;
    }
  }

  // ---------- Lines ----------

  predicate OneLine(s: seq<byte>) {
    NEWLINE !in s
  }

  /** The bytes before the first newline, and those after it. */
  function FirstLine(stream: seq<byte>): Option<(seq<byte>, seq<byte>)> {
    if stream == [] then None
    else if stream[0] == NEWLINE then Some(([], stream[1..]))
    else
      match FirstLine(stream[1..])
      case None => None
      case Some((line, rest)) => Some(([stream[0]] + line, rest))
  }

  /** FirstLine splits a stream at its first newline, and fails exactly when there is none. */
  lemma {:induction false} FirstLineSplits(stream: seq<byte>)
    ensures FirstLine(stream).None? <==> OneLine(stream)
    ensures FirstLine(stream).Some? ==>
              OneLine(FirstLine(stream).value.0)
                && stream == FirstLine(stream).value.0 + [NEWLINE] + FirstLine(stream).value.1
  {
    if stream != [] && stream[0] != NEWLINE {
      FirstLineSplits(stream[1..]);
    }
  }

  lemma {:induction false} FirstLineOf(line: seq<byte>, rest: seq<byte>)
    requires OneLine(line)
    ensures FirstLine(line + [NEWLINE] + rest) == Some((line, rest))
  {
    var stream := line + [NEWLINE] + rest;
    if line == [] {
      assert stream[1..] == rest;
    } else {
      assert stream[1..] == line[1..] + [NEWLINE] + rest;
      assert stream[0] == line[0] && line[0] in line;
      FirstLineOf(line[1..], rest);
      assert [stream[0]] + line[1..] == line;
    }
  }

  method ReadByte(c: WsAdapter, b: array<byte>) returns (ok: bool)
    requires b.Length == 1
    modifies c, b
    ensures ok ==> old(c.Remaining()) == [b[0]] + c.Remaining()
    ensures !ok ==> old(c.Remaining()) == [] && c.Remaining() == []
  {
    var n;
    n, ok := c.Read(b);
    assert ok ==> b[..n] == [b[0]];
  }

  lemma Grown(whole: seq<byte>, buf: seq<byte>, x: byte, rest: seq<byte>)
    requires whole == buf + ([x] + rest)
    ensures whole == (buf + [x]) + rest
  {
  }

  /** Reads one byte at a time, and no byte past the first newline. */
  method ReadLine(c: WsAdapter) returns (line: seq<byte>, ok: bool)
    modifies c
    ensures ok == FirstLine(old(c.Remaining())).Some?
    ensures ok ==> FirstLine(old(c.Remaining())) == Some((line, c.Remaining()))
    ensures !ok ==> line == [] && c.Remaining() == []
  {
    ghost var whole := c.Remaining();
    var buf: seq<byte> := [];
    var b := new byte[1];
    ok := true;
    while ok
      invariant OneLine(buf) && whole == buf + c.Remaining()
      invariant !ok ==> c.Remaining() == []
      decreases ok, |c.Remaining()|
    {
      ok := ReadByte(c, b);
      if ok {
        Grown(whole, buf, b[0], c.Remaining());
        if b[0] == NEWLINE {
          FirstLineOf(buf, c.Remaining());
          return buf, true;
        }
        buf := buf + [b[0]];
      }
    }
    line := [];
    FirstLineSplits(whole);
  }

  class Wire {
    var sent: seq<Message>

    constructor ()
      ensures sent == []
    {
      sent := [];
    }

    method Write(p: seq<byte>)
      modifies this
      ensures sent == old(sent) + [Message(true, p, true)]
    {
      sent := sent + [Message(true, p, true)];
    }

    method WriteLine(s: seq<byte>)
      modifies this
      ensures sent == old(sent) + [Message(true, s + [NEWLINE], true)]
    {
      Write(s + [NEWLINE]);
    }
  }

  function Framed(lines: seq<seq<byte>>): seq<Message> {
    seq(|lines|, i requires 0 <= i < |lines| => Message(true, lines[i] + [NEWLINE], true))
  }

  /** The first `n` lines of a stream and what follows them. */
  function TakeLines(stream: seq<byte>, n: nat): Option<(seq<seq<byte>>, seq<byte>)>
    decreases n
  {
    if n == 0 then Some(([], stream))
    else
      match FirstLine(stream)
      case None => None
      case Some((line, rest)) =>
        match TakeLines(rest, n - 1)
        case None => None
        case Some((lines, end)) => Some(([line] + lines, end))
  }

  /** Lines written one by one are read back one by one, and the bytes after them are left for the
      splice, provided that no line contains a newline. */
  lemma {:induction false} LinesRoundTrip(lines: seq<seq<byte>>, after: seq<Message>)
    requires forall l | l in lines :: OneLine(l)
    ensures TakeLines(Payload(Framed(lines) + after), |lines|) == Some((lines, Payload(after)))
  {
    if lines == [] {
      assert Framed(lines) + after == after;
    } else {
      var all, rest := Framed(lines) + after, Framed(lines[1..]) + after;
      assert all[1..] == rest && all[0] == Message(true, lines[0] + [NEWLINE], true);
      FirstLineOf(lines[0], Payload(rest));
      LinesRoundTrip(lines[1..], after);
      assert [lines[0]] + lines[1..] == lines;
    }
  }

  function Newlines(s: seq<byte>): nat {
    if s == [] then 0 else (if s[0] == NEWLINE then 1 else 0) + Newlines(s[1..])
  }

  lemma {:induction false} NewlinesConcat(a: seq<byte>, b: seq<byte>)
    ensures Newlines(a + b) == Newlines(a) + Newlines(b)
  {
    if a == [] {
      assert a + b == b;
    } else {
      assert (a + b)[1..] == a[1..] + b;
      NewlinesConcat(a[1..], b);
    }
  }

  lemma {:induction false} NoNewlines(s: seq<byte>)
    ensures OneLine(s) <==> Newlines(s) == 0
  {
    if s != [] {
      NoNewlines(s[1..]);
    }
  }

  lemma FirstLineCosts(stream: seq<byte>)
    ensures FirstLine(stream).Some? ==> Newlines(stream) == 1 + Newlines(FirstLine(stream).value.1)
    ensures FirstLine(stream).None? ==> Newlines(stream) == 0
  {
    FirstLineSplits(stream);
    NoNewlines(stream);
    if FirstLine(stream).Some? {
      var (line, rest) := FirstLine(stream).value;
      NewlinesConcat(line + [NEWLINE], rest);
      NewlinesConcat(line, [NEWLINE]);
      NoNewlines(line);
    }
  }

  /** A stream gives n lines, none with a newline in it, as soon as it has n newlines. */
  lemma {:induction false} LinesTaken(stream: seq<byte>, n: nat)
    ensures Newlines(stream) >= n ==> TakeLines(stream, n).Some?
    ensures TakeLines(stream, n).Some? ==> forall l | l in TakeLines(stream, n).value.0 :: OneLine(l)
    decreases n
  {
    if n > 0 {
      FirstLineCosts(stream);
      FirstLineSplits(stream);
      if FirstLine(stream).Some? {
        LinesTaken(FirstLine(stream).value.1, n - 1);
      }
    }
  }

  lemma {:induction false} FramedNewlines(lines: seq<seq<byte>>, after: seq<Message>)
    ensures Newlines(Payload(Framed(lines) + after)) >= |lines|
  {
    if lines != [] {
      var all, rest := Framed(lines) + after, Framed(lines[1..]) + after;
      assert all[1..] == rest && all[0] == Message(true, lines[0] + [NEWLINE], true);
      FramedNewlines(lines[1..], after);
      NewlinesConcat(lines[0] + [NEWLINE], Payload(rest));
      NewlinesConcat(lines[0], [NEWLINE]);
    }
  }

  /** As many lines as were written can always be read, and they are the ones written exactly when none
      of those contains a newline. */
  lemma LinesRoundTripExactlyWhen(lines: seq<seq<byte>>, after: seq<Message>)
    ensures var r := TakeLines(Payload(Framed(lines) + after), |lines|);
            r.Some? && (r.value.0 == lines <==> forall l | l in lines :: OneLine(l))
  {
    FramedNewlines(lines, after);
    LinesTaken(Payload(Framed(lines) + after), |lines|);
    if forall l | l in lines :: OneLine(l) {
      LinesRoundTrip(lines, after);
    }
  }

  /** A line survives writing and reading exactly when it contains no newline. */
  lemma LineRoundTripExactlyWhen(line: seq<byte>)
    ensures FirstLine(line + [NEWLINE]) == Some((line, [])) <==> OneLine(line)
  {
    FirstLineSplits(line + [NEWLINE]);
    if OneLine(line) {
      FirstLineOf(line, []);
      assert line + [NEWLINE] + [] == line + [NEWLINE];
    }
  }

  method WriteLines(w: Wire, lines: seq<seq<byte>>)
    modifies w
    ensures w.sent == old(w.sent) + Framed(lines)
  {
    for i := 0 to |lines|
      invariant w.sent == old(w.sent) + Framed(lines)[..i]
    {
      w.WriteLine(lines[i]);
    }
  }

  method ReadLines(c: WsAdapter, n: nat) returns (lines: seq<seq<byte>>, ok: bool)
    modifies c
    ensures ok == TakeLines(old(c.Remaining()), n).Some?
    ensures ok ==> TakeLines(old(c.Remaining()), n) == Some((lines, c.Remaining()))
  {
    lines, ok := [], true;
    ghost var whole := c.Remaining();
    NothingPrepended(TakeLines(whole, n));
    for i := 0 to n
      invariant TakeLines(whole, n) == Prepended(lines, TakeLines(c.Remaining(), n - i))
    {
      var line;
      ghost var stream := c.Remaining();
      line, ok := ReadLine(c);
      if !ok {
        return;
      }
      PrependedOne(lines, line, TakeLines(c.Remaining(), n - i - 1));
      lines := lines + [line];
    }
    assert lines + [] == lines;
  }

  /** Lines already read, before what reading the rest gives. */
  function Prepended(lines: seq<seq<byte>>, r: Option<(seq<seq<byte>>, seq<byte>)>): Option<(seq<seq<byte>>, seq<byte>)>
  {
    if r.Some? then Some((lines + r.value.0, r.value.1)) else None
  }

  lemma NothingPrepended(r: Option<(seq<seq<byte>>, seq<byte>)>)
    ensures Prepended([], r) == r
  {
    assert r.Some? ==> [] + r.value.0 == r.value.0;
  }

  lemma PrependedOne(lines: seq<seq<byte>>, line: seq<byte>, r: Option<(seq<seq<byte>>, seq<byte>)>)
    ensures Prepended(lines, Prepended([line], r)) == Prepended(lines + [line], r)
  {
    if r.Some? {
      Regroup(lines, [line], r.value.0);
    }
  }

  /** Written with `writeLine` and read with `readLine`, lines come out as they went in exactly when
      none contains a newline. */
  method ExchangeLines(lines: seq<seq<byte>>) returns (got: seq<seq<byte>>, ok: bool)
    ensures ok && (got == lines <==> forall l | l in lines :: OneLine(l))
  {
    var w := new Wire();
    WriteLines(w, lines);
    var c := new WsAdapter(w.sent);
    LinesRoundTripExactlyWhen(lines, []);
    assert Framed(lines) + [] == w.sent;
    got, ok := ReadLines(c, |lines|);
  }

  // ---------- Reconnecting ----------

  const INITIAL_DELAY := 1
  const MAX_DELAY := 30

  function Pow2(k: nat): nat {
    if k == 0 then 1 else 2 * Pow2(k - 1)
  }

  function NextDelay(delay: nat): nat {
    if delay == 0 then INITIAL_DELAY else if 2 * delay > MAX_DELAY then MAX_DELAY else 2 * delay
  }

  function DelayAfter(calls: nat): nat {
    if calls == 0 then 0 else NextDelay(DelayAfter(calls - 1))
  }

  class ReconnectBackoff {
    var delay: nat

    constructor ()
      ensures delay == DelayAfter(0)
    {
      delay := 0;
    }

    method Reset()
      modifies this
      ensures delay == DelayAfter(0)
    {
      delay := 0;
    }

    method Next(ghost calls: nat) returns (d: nat)
      requires delay == DelayAfter(calls)
      modifies this
      ensures d == delay == DelayAfter(calls + 1)
    {
      if delay == 0 {
        delay := INITIAL_DELAY;
      } else {
        delay := delay * 2;
        if delay > MAX_DELAY {
          delay := MAX_DELAY;
        }
      }
      d := delay;
    }
  }

  /** The k-th delay since a reset doubles from one second and stops at thirty. */
  lemma {:induction false} DelayIsCappedDoubling(k: nat)
    requires k >= 1
    ensures DelayAfter(k) == if Pow2(k - 1) < MAX_DELAY then Pow2(k - 1) else MAX_DELAY
  {
    if k > 1 {
      DelayIsCappedDoubling(k - 1);
    }
  }
}
