/**
 * The UDP server: `Run` resolves and binds, `handleConnections` is the read loop,
 * `handleConnection` the reply to one datagram. Each `ReadFromUDP` is one event.
 */
module UdpListener {
  import opened Wrappers
  import opened Text
  import opened Serving

  datatype UdpAddr = UdpAddr(ip: string, port: int)

  /** What one call of `ReadFromUDP` returns: an error, or a datagram and its sender (nil when unknown). */
  datatype Read = ReadError(err: string) | Packet(sender: Option<UdpAddr>, data: seq<byte>)

  /** A datagram written with `WriteToUDP`. */
  datatype Datagram = Datagram(to: UdpAddr, payload: seq<byte>)

  /** The size of the buffer each read fills. */
  const BufferSize := 2048
  const RecievedLabel: seq<byte> := "Request recieved: "
  const ResolveFailed := "could not resolve UDP addr"
  const ListenFailed := "could not listen on UDP"

  /** The part of a datagram that fits the read buffer. */
  function Fitted(data: seq<byte>): (r: seq<byte>)
    ensures |r| <= BufferSize && r <= data
    ensures |data| <= BufferSize ==> r == data
  {
    if |data| <= BufferSize then data else data[..BufferSize]
  }

  /** A receiver's view of a reply: the payload behind the label, if the label is there. */
  function Unlabel(payload: seq<byte>): Option<seq<byte>>
  {
    if |payload| >= |RecievedLabel| && payload[..|RecievedLabel|] == RecievedLabel
    then Some(payload[|RecievedLabel|..])
    else None
  }

  /** Datagram `d` is the reply to turn `e`: it goes to that datagram's sender and echoes what the buffer held. */
  predicate Answers(d: Datagram, e: Event<Read>)
  {
    && e.Io? && e.outcome.Packet?
    && e.outcome.sender == Some(d.to)
    && Unlabel(d.payload) == Some(Fitted(e.outcome.data))
  }

  /** The reply a turn causes: one for a datagram with a known sender, none otherwise. */
  function Answer(e: Event<Read>): seq<Datagram>
  {
    if e.Io? && e.outcome.Packet? && e.outcome.sender.Some?
    then [UDPServer.HandleConnection(e.outcome.sender.value, Fitted(e.outcome.data))]
    else []
  }

  /** What one read into a fresh buffer returns decides the turn's reply. */
  lemma AnswerOfRead(r: Read, n: nat, sender: Option<UdpAddr>, err: Option<string>, data: seq<byte>)
    requires r.ReadError? ==> err == Some(r.err) && sender == None
    requires r.Packet? ==> err == None && sender == r.sender
    requires r.Packet? ==> n == (if |r.data| < BufferSize then |r.data| else BufferSize) && data == r.data[..n]
    ensures Answer(Io(r)) == if err.None? && sender.Some? then [UDPServer.HandleConnection(sender.value, data)] else []
  {
    if r.Packet? && |r.data| <= BufferSize {
      assert data == r.data;
    }
  }

  /** The replies sent, in order, over a run of turns. */
  function Replies(events: seq<Event<Read>>): seq<Datagram>
  {
    if events == [] then [] else Replies(events[..|events| - 1]) + Answer(events[|events| - 1])
  }

  lemma RepliesStep(events: seq<Event<Read>>, i: nat)
    requires i < |events|
    ensures Replies(events[..i + 1]) == Replies(events[..i]) + Answer(events[i])
  {
    assert events[..i + 1][..i] == events[..i];
  }

  lemma {:induction false} RepliesAppend(a: seq<Event<Read>>, b: seq<Event<Read>>)
    ensures Replies(a + b) == Replies(a) + Replies(b)
    decreases |b|
  {
    if b == [] {
      assert a + b == a;
    } else {
      var b' := b[..|b| - 1];
      assert (a + b)[..|a + b| - 1] == a + b';
      RepliesAppend(a, b');
    }
  }

  /** A read error, or a datagram with a nil sender, is skipped: it causes no reply and changes no other. */
  lemma {:induction false} UnansweredReadSkipped(a: seq<Event<Read>>, r: Read, b: seq<Event<Read>>)
    requires r.ReadError? || r.sender.None?
    ensures Replies(a + [Io(r)] + b) == Replies(a + b)
  {
    assert Answer(Io(r)) == [];
    assert [Io(r)][..0] == [];
    assert Replies([Io(r)]) == [];
    RepliesAppend(a + [Io(r)], b);
    RepliesAppend(a, [Io(r)]);
    RepliesAppend(a, b);
  }

  /**
   * Every reply answers some datagram of the run: it goes to that datagram's sender
   * and carries the label and at most 2048 bytes of it.
   */
  lemma {:induction false} RepliesAnswerSenders(events: seq<Event<Read>>)
    ensures forall k :: 0 <= k < |Replies(events)| ==>
      && |Replies(events)[k].payload| <= |RecievedLabel| + BufferSize
      && exists j :: 0 <= j < |events| && Answers(Replies(events)[k], events[j])
  {
    if events != [] {
      var init, last := events[..|events| - 1], events[|events| - 1];
      RepliesAnswerSenders(init);
      forall k | 0 <= k < |Replies(events)|
        ensures |Replies(events)[k].payload| <= |RecievedLabel| + BufferSize
        ensures exists j :: 0 <= j < |events| && Answers(Replies(events)[k], events[j])
      {
        if k < |Replies(init)| {
          var j :| 0 <= j < |init| && Answers(Replies(init)[k], init[j]);
          assert events[j] == init[j];
        } else {
          assert Answers(Replies(events)[k], last);
        }
      }
    }
  }

  /** `ReadFromUDP` into `buf`: an error, or as much of the datagram as fits, and its sender. */
  method ReadFromUDP(buf: array<byte>, r: Read) returns (n: nat, sender: Option<UdpAddr>, err: Option<string>)
    modifies buf
    ensures r.ReadError? ==> err == Some(r.err) && n == 0 && sender == None
    ensures r.Packet? ==> err == None && sender == r.sender
    ensures r.Packet? ==> n == (if |r.data| < buf.Length then |r.data| else buf.Length) && buf[..n] == r.data[..n]
  {
    if r.ReadError? {
      return 0, None, Some(r.err);
    }
    n := if |r.data| < buf.Length then |r.data| else buf.Length;
    for i := 0 to n
      invariant forall j :: 0 <= j < i ==> buf[j] == r.data[j]
    {
      buf[i] := r.data[i];
    }
    assert buf[..n] == r.data[..n];
    sender, err := r.sender, None;
  }

  class UDPServer {
    const addr: string
    var server: Socket

    constructor (addr: string)
      ensures this.addr == addr && server == Unset
    {
      this.addr := addr;
      server := Unset;
    }

    /**
     * `Run`: a failed resolve returns before `server` is assigned; a failed `ListenUDP`
     * leaves it nil; otherwise the read loop runs. No `Close` follows: the socket is
     * still open after the loop returns.
     */
    method Run(resolveErr: Option<string>, listenErr: Option<string>, events: seq<Event<Read>>)
      returns (exit: LoopExit, replies: seq<Datagram>)
      modifies this
      ensures resolveErr.Some? ==> exit == Returned(Some(ResolveFailed)) && replies == [] && server == old(server)
      ensures resolveErr.None? && listenErr.Some? ==> exit == Returned(Some(ListenFailed)) && replies == [] && server == Unset
      ensures resolveErr.None? && listenErr.None? ==>
        exit == ExitAfter(events) && replies == Replies(events[..StopAt(events)]) && server == Open
    {
      if resolveErr.Some? {
        return Returned(Some(ResolveFailed)), [];
      }
      if listenErr.Some? {
        server := Unset;
        return Returned(Some(ListenFailed)), [];
      }
      server := Open;
      var calls;
      exit, replies, calls := HandleConnections(events);
    }

    /** `Close`: shuts the socket; closing it a second time reports an error. */
    method Close() returns (err: Option<string>)
      requires server != Unset
      modifies this
      ensures server == Shut
      ensures err == (if old(server) == Shut then Some(ClosedError) else None)
    {
      err := if server == Shut then Some(ClosedError) else None;
      server := Shut;
    }

    /**
     * `handleConnections`: quit is checked before every read into a fresh 2048-byte
     * buffer; read errors and nil senders are skipped, every other datagram is answered.
     * The loop returns only after quit, and then with a nil error.
     */
    method HandleConnections(events: seq<Event<Read>>) returns (exit: LoopExit, replies: seq<Datagram>, calls: nat)
      requires server == Open
      ensures calls == StopAt(events)
      ensures exit == ExitAfter(events)
      ensures replies == Replies(events[..calls])
    {
      calls, replies := 0, [];
      while calls < |events|
        invariant calls <= |events|
        invariant forall j :: 0 <= j < calls ==> events[j].Io?
        invariant replies == Replies(events[..calls])
      {
        if events[calls].Quit? {
          return Returned(None), replies, calls;
        }
        var r := events[calls].outcome;
        var buf := new byte[BufferSize](_ => 0 as char);
        var n, conn, err := ReadFromUDP(buf, r);
        var data := buf[..n];
        RepliesStep(events, calls);
        AnswerOfRead(r, n, conn, err, data);
        if err.None? && conn.Some? {
          replies := replies + [HandleConnection(conn.value, data)];
        }
        calls := calls + 1;
      }
      assert events[..calls] == events;
      exit := Serving;
    }

    /** `handleConnection`: one datagram back to the sender, the label followed by the bytes read. */
    static function HandleConnection(addr: UdpAddr, cmd: seq<byte>): (d: Datagram)
      ensures d.to == addr && Unlabel(d.payload) == Some(cmd)
    {
      Datagram(addr, RecievedLabel + cmd)
    }
  }
}
