/**
 * The TCP server: `Run` binds and serves, `handleConnections` is the accept loop,
 * `handleConnection` the per-connection line echo. Each `Accept` is one event;
 * a connection's traffic is the whole byte stream its peer sends before the read fails.
 */
module TcpListener {
  import opened Wrappers
  import opened Text
  import opened Serving

  /** An accepted connection, known by its peer's address. */
  datatype Conn = Conn(remote: string)

  /** What one call of `Accept` returns. */
  datatype Accept = AcceptError(err: string) | NilConn | Accepted(conn: Conn)

  const ReceivedLabel: seq<byte> := "Request received: "
  const ReadFailure: seq<byte> := "failed to read input"

  /** The handlers a turn dispatches: one for an accepted connection, none otherwise. */
  function Dispatched(e: Event<Accept>): seq<Conn>
  {
    if e.Io? && e.outcome.Accepted? then [e.outcome.conn] else []
  }

  /** The handlers dispatched, in order, over a run of turns. */
  function Connections(events: seq<Event<Accept>>): seq<Conn>
  {
    if events == [] then [] else Connections(events[..|events| - 1]) + Dispatched(events[|events| - 1])
  }

  lemma ConnectionsStep(events: seq<Event<Accept>>, i: nat)
    requires i < |events|
    ensures Connections(events[..i + 1]) == Connections(events[..i]) + Dispatched(events[i])
  {
    assert events[..i + 1][..i] == events[..i];
  }

  /** Dispatch is decided turn by turn: a run of turns dispatches what its parts dispatch. */
  lemma {:induction false} ConnectionsAppend(a: seq<Event<Accept>>, b: seq<Event<Accept>>)
    ensures Connections(a + b) == Connections(a) + Connections(b)
    decreases |b|
  {
    if b == [] {
      assert a + b == a;
    } else {
      var b' := b[..|b| - 1];
      assert (a + b)[..|a + b| - 1] == a + b';
      ConnectionsAppend(a, b');
    }
  }

  /** A failed or empty accept dispatches no handler and does not disturb the others. */
  lemma {:induction false} FailedAcceptDispatchesNothing(a: seq<Event<Accept>>, e: Accept, b: seq<Event<Accept>>)
    requires !e.Accepted?
    ensures Connections(a + [Io(e)] + b) == Connections(a + b)
  {
    assert Dispatched(Io(e)) == [];
    assert [Io(e)][..0] == [];
    assert Connections([Io(e)]) == [];
    ConnectionsAppend(a + [Io(e)], b);
    ConnectionsAppend(a, [Io(e)]);
    ConnectionsAppend(a, b);
  }

  /** The index of the first `b` in `s`. */
  function FirstIndex(s: seq<byte>, b: byte): (k: nat)
    requires b in s
    ensures k < |s| && s[k] == b && b !in s[..k]
  {
    if s[0] == b then 0
    else
      var k := 1 + FirstIndex(s[1..], b);
      assert s[..k] == [s[0]] + s[1..][..k - 1];
      k
  }

  /** A line as `ReadString('\n')` returns it: it ends in its only newline. */
  predicate IsLine(l: seq<byte>)
  {
    |l| > 0 && l[|l| - 1] == Newline && Newline !in l[..|l| - 1]
  }

  /**
   * What the handler writes back to a peer whose input is `input`: an echo of
   * each newline-terminated line, then the failure message once input runs out.
   */
  function Transcript(input: seq<byte>): seq<byte>
    decreases |input|
  {
    if Newline !in input then ReadFailure
    else
      var k := FirstIndex(input, Newline);
      ReceivedLabel + input[..k + 1] + Transcript(input[k + 1..])
  }

  /** One successful `ReadString` of the handler: the line it returns is echoed, the rest is handled alike. */
  lemma TranscriptStep(input: seq<byte>, p: nat, q: nat)
    requires p <= |input| && Newline in input[p..] && q == p + FirstIndex(input[p..], Newline) + 1
    ensures q <= |input|
    ensures Transcript(input[p..]) == ReceivedLabel + input[p..q] + Transcript(input[q..])
  {
    var rest := input[p..];
    var k := FirstIndex(rest, Newline);
    assert rest[..k + 1] == input[p..q];
    assert rest[k + 1..] == input[q..];
  }

  lemma AppendAssoc(a: seq<byte>, b: seq<byte>, c: seq<byte>)
    ensures a + b + c == a + (b + c)
  {
  }

  function Concat(lines: seq<seq<byte>>): seq<byte>
  {
    if lines == [] then [] else lines[0] + Concat(lines[1..])
  }

  function EchoAll(lines: seq<seq<byte>>): seq<byte>
  {
    if lines == [] then [] else ReceivedLabel + lines[0] + EchoAll(lines[1..])
  }

  lemma FirstNewlineEndsLine(l: seq<byte>, more: seq<byte>)
    requires IsLine(l)
    ensures Newline in l + more && FirstIndex(l + more, Newline) == |l| - 1
  {
    var s := l + more;
    assert s[..|l| - 1] == l[..|l| - 1];
    FirstIndexUnique(s, |l| - 1);
  }

  /**
   * The handler's whole output for input made of complete lines followed by an
   * unterminated tail: each line echoed behind the label in order, then the
   * failure message exactly once; the tail is never echoed.
   */
  lemma {:induction false} TranscriptOfLines(lines: seq<seq<byte>>, rest: seq<byte>)
    requires forall i :: 0 <= i < |lines| ==> IsLine(lines[i])
    requires Newline !in rest
    ensures Transcript(Concat(lines) + rest) == EchoAll(lines) + ReadFailure
  {
    if lines == [] {
      assert Concat(lines) + rest == rest;
    } else {
      var l, tail := lines[0], Concat(lines[1..]) + rest;
      var input := Concat(lines) + rest;
      assert input == l + tail;
      FirstNewlineEndsLine(l, tail);
      assert input[..|l|] == l;
      assert input[|l|..] == tail;
      TranscriptOfLines(lines[1..], rest);
    }
  }

  /** Every input splits into complete lines and an unterminated tail, and the handler echoes exactly those lines. */
  lemma {:induction false} HandlerEchoesCompleteLines(input: seq<byte>) returns (lines: seq<seq<byte>>, rest: seq<byte>)
    ensures forall i :: 0 <= i < |lines| ==> IsLine(lines[i])
    ensures Newline !in rest
    ensures Concat(lines) + rest == input
    ensures Transcript(input) == EchoAll(lines) + ReadFailure
  {
    lines, rest := Split(input);
    TranscriptOfLines(lines, rest);
  }

  /** Splits input into its complete lines and the unterminated tail. */
  lemma {:induction false} Split(input: seq<byte>) returns (lines: seq<seq<byte>>, rest: seq<byte>)
    ensures forall i :: 0 <= i < |lines| ==> IsLine(lines[i])
    ensures Newline !in rest
    ensures Concat(lines) + rest == input
    decreases |input|
  {
    if Newline !in input {
      lines, rest := [], input;
    } else {
      var k := FirstIndex(input, Newline);
      var line := input[..k + 1];
      assert line[..k] == input[..k];
      assert IsLine(line);
      var more;
      more, rest := Split(input[k + 1..]);
      lines := [line] + more;
      assert lines[1..] == more;
      assert Concat(lines) == line + Concat(more);
      assert input == line + input[k + 1..];
    }
  }

  /** Input that starts with a complete line holds a newline. */
  lemma ConcatHasNewline(lines: seq<seq<byte>>, rest: seq<byte>)
    requires lines != [] && IsLine(lines[0])
    ensures Newline in Concat(lines) + rest
  {
    var l := lines[0];
    assert (Concat(lines) + rest)[|l| - 1] == l[|l| - 1];
  }

  /** The split into complete lines and an unterminated tail is unique: `Split` finds the only one. */
  lemma {:induction false} SplitUnique(l1: seq<seq<byte>>, r1: seq<byte>, l2: seq<seq<byte>>, r2: seq<byte>)
    requires forall i :: 0 <= i < |l1| ==> IsLine(l1[i])
    requires forall i :: 0 <= i < |l2| ==> IsLine(l2[i])
    requires Newline !in r1 && Newline !in r2
    requires Concat(l1) + r1 == Concat(l2) + r2
    ensures l1 == l2 && r1 == r2
    decreases |l1|
  {
    if l1 == [] {
      if l2 != [] {
        ConcatHasNewline(l2, r2);
        assert false;
      } else {
        assert Concat(l1) + r1 == r1;
        assert Concat(l2) + r2 == r2;
      }
    } else if l2 == [] {
      ConcatHasNewline(l1, r1);
      assert false;
    } else {
      var a, b := l1[0], l2[0];
      var t1, t2 := Concat(l1[1..]) + r1, Concat(l2[1..]) + r2;
      var input := Concat(l1) + r1;
      assert input == a + t1;
      assert input == b + t2;
      FirstNewlineEndsLine(a, t1);
      FirstNewlineEndsLine(b, t2);
      assert a == input[..|a|] == b;
      assert t1 == input[|a|..] == t2;
      SplitUnique(l1[1..], r1, l2[1..], r2);
      assert l1 == [a] + l1[1..];
      assert l2 == [b] + l2[1..];
    }
  }

  /** Whatever unterminated data trails the last complete line, the handler's output is the same. */
  lemma {:induction false} TrailingDataNeverEchoed(lines: seq<seq<byte>>, rest1: seq<byte>, rest2: seq<byte>)
    requires forall i :: 0 <= i < |lines| ==> IsLine(lines[i])
    requires Newline !in rest1 && Newline !in rest2
    ensures Transcript(Concat(lines) + rest1) == Transcript(Concat(lines) + rest2)
  {
    TranscriptOfLines(lines, rest1);
    TranscriptOfLines(lines, rest2);
  }

  /** The buffered reader over a connection: `pos` bytes of the peer's input are consumed. */
  class LineReader {
    const input: seq<byte>
    var pos: nat

    ghost predicate Valid()
      reads this
    {
      pos <= |input|
    }

    constructor (input: seq<byte>)
      ensures this.input == input && pos == 0 && Valid()
    {
      this.input := input;
      pos := 0;
    }

    /**
     * `ReadString('\n')`: the bytes up to and including the next newline; at the end
     * of input, the partial data and an error.
     */
    method ReadString() returns (line: seq<byte>, failed: bool)
      requires Valid()
      modifies this
      ensures Valid()
      ensures failed <==> Newline !in old(input[pos..])
      ensures !failed ==> pos == old(pos) + FirstIndex(old(input[pos..]), Newline) + 1
      ensures failed ==> pos == |input|
      ensures line == input[old(pos)..pos]
    {
      var i := pos;
      while i < |input| && input[i] != Newline
        invariant pos <= i <= |input|
        invariant Newline !in input[pos..i]
      {
        assert input[pos..i + 1] == input[pos..i] + [input[i]];
        i := i + 1;
      }
      if i == |input| {
        assert input[pos..i] == input[pos..];
        line, failed := input[pos..], true;
        pos := i;
      } else {
        ghost var s := input[pos..];
        assert s[..i - pos] == input[pos..i] && s[i - pos] == Newline;
        FirstIndexUnique(s, i - pos);
        line, failed := input[pos..i + 1], false;
        pos := i + 1;
      }
    }
  }

  lemma FirstIndexUnique(s: seq<byte>, k: nat)
    requires k < |s| && s[k] == Newline && Newline !in s[..k]
    ensures FirstIndex(s, Newline) == k
  {
  }

  class TCPServer {
    const addr: string
    var server: Socket

    constructor (addr: string)
      ensures this.addr == addr && server == Unset
    {
      this.addr := addr;
      server := Unset;
    }

    /**
     * `Run`: a failed `net.Listen` leaves a nil listener and returns its error; otherwise
     * the accept loop runs, and once it returns the deferred `Close` shuts the listener.
     */
    method Run(listenErr: Option<string>, events: seq<Event<Accept>>) returns (exit: LoopExit, handled: seq<Conn>)
      modifies this
      ensures listenErr.Some? ==> exit == Returned(listenErr) && handled == [] && server == Unset
      ensures listenErr.None? ==> exit == ExitAfter(events) && handled == Connections(events[..StopAt(events)])
      ensures listenErr.None? ==> server == (if exit.Returned? then Shut else Open)
    {
      if listenErr.Some? {
        server := Unset;
        return Returned(listenErr), [];
      }
      server := Open;
      var accepts;
      exit, handled, accepts := HandleConnections(events);
      if exit.Returned? {
        var _ := Close();
      }
    }

    /** `Close`: shuts the listener; closing it a second time reports an error. */
    method Close() returns (err: Option<string>)
      requires server != Unset
      modifies this
      ensures server == Shut
      ensures err == (if old(server) == Shut then Some(ClosedError) else None)
    {
      err := if server == Shut then Some(ClosedError) else None;
      server := Shut;
    }

    /**
     * `handleConnections`: quit is checked before every `Accept`; a failed or nil accept
     * only leaves the `select`, so the loop returns only after quit, and then with nil.
     * `accepts` counts the `Accept` calls: exactly the turns before quit is seen.
     */
    method HandleConnections(events: seq<Event<Accept>>) returns (exit: LoopExit, handled: seq<Conn>, accepts: nat)
      requires server == Open
      ensures accepts == StopAt(events)
      ensures exit == ExitAfter(events)
      ensures handled == Connections(events[..accepts])
    {
      accepts, handled := 0, [];
      while accepts < |events|
        invariant accepts <= |events|
        invariant forall j :: 0 <= j < accepts ==> events[j].Io?
        invariant handled == Connections(events[..accepts])
      {
        match events[accepts]
        case Quit =>
          return Returned(None), handled, accepts;
        case Io(outcome) =>
          if outcome.Accepted? {
            handled := handled + [outcome.conn];
          }
        ConnectionsStep(events, accepts);
        accepts := accepts + 1;
      }
      assert events[..accepts] == events;
      exit := Serving;
    }

    /**
     * `handleConnection`: reads line after line, echoing each behind the label, until a
     * read fails; then writes the failure message and stops.
     */
    method HandleConnection(input: seq<byte>) returns (output: seq<byte>)
      ensures output == Transcript(input)
    {
      var rw := new LineReader(input);
      output := [];
      while true
        invariant rw.Valid() && rw.input == input
        invariant output + Transcript(input[rw.pos..]) == Transcript(input)
        decreases |input| - rw.pos
      {
        ghost var p := rw.pos;
        var req, failed := rw.ReadString();
        if failed {
          output := output + ReadFailure;
          return;
        }
        TranscriptStep(input, p, rw.pos);
        AppendAssoc(output, ReceivedLabel + req, Transcript(input[rw.pos..]));
        output := output + (ReceivedLabel + req);
      }
    }
  }
}
