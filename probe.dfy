/**
 * `checkPort` without its sockets: what is sent and which single result line is
 * printed, given how the dial and the one read turned out.
 */
module Probe {
  import opened Wrappers
  import opened Text

  /** The probe token written after a successful dial. */
  const Payload: seq<byte> := "TEST\n"
  /** The size of the buffer the reply is read into. */
  const ReplyBufferSize := 4096

  /** How the single `Read` turned out: an error, or the bytes the peer had sent. */
  datatype ReadOutcome = ReadFailed(err: string) | Replied(data: seq<byte>)

  /** How `DialTimeout` turned out; when connected, how the read after it turned out. */
  datatype DialOutcome = DialFailed(err: string) | Connected(read: ReadOutcome)

  /** The verdict a result line carries. */
  datatype Verdict = Ok(n: nat) | Error(err: string)

  /** What one probe does: the bytes it sends and the line it prints. */
  datatype ProbeReport = ProbeReport(sent: seq<byte>, line: string)

  /** `fmt.Sprintf("%s:%d", ip, port)`. */
  function HostPort(ip: string, port: int): string
  {
    ip + ":" + Decimal(port)
  }

  /**
   * Success exactly when both the dial and the read succeed; the count is what the
   * read put in the 4096-byte buffer, so never more than 4096.
   */
  function Classify(outcome: DialOutcome): (v: Verdict)
    ensures v.Ok? <==> outcome.Connected? && outcome.read.Replied?
    ensures v.Ok? ==> v.n <= ReplyBufferSize && v.n <= |outcome.read.data|
    ensures v.Ok? ==> v.n == |outcome.read.data| || v.n == ReplyBufferSize
    ensures outcome.DialFailed? ==> v == Error(outcome.err)
    ensures outcome.Connected? && outcome.read.ReadFailed? ==> v == Error(outcome.read.err)
  {
    match outcome
    case DialFailed(e) => Error(e)
    case Connected(ReadFailed(e)) => Error(e)
    case Connected(Replied(data)) => Ok(if |data| < ReplyBufferSize then |data| else ReplyBufferSize)
  }

  /** `"%s: OK %d\n"` or `"%s: Error %s\n"`. */
  function ResultLine(host: string, v: Verdict): string
  {
    match v
    case Ok(n) => host + ": OK " + Decimal(n) + "\n"
    case Error(e) => host + ": Error " + e + "\n"
  }

  /** A reader's view of a result line about `host`: the verdict it reports. */
  function ParseResultLine(host: string, line: string): Option<Verdict>
  {
    var p := |host| + 2;
    if |line| < p + 1 || line[..p] != host + ": " || line[|line| - 1] != '\n' then None
    else
      var body := line[p..|line| - 1];
      if |body| >= 3 && body[..3] == "OK " then
        match ParseDecimal(body[3..])
        case Some(n) => if n >= 0 then Some(Ok(n)) else None
        case None => None
      else if |body| >= 6 && body[..6] == "Error " then Some(Error(body[6..]))
      else None
  }

  /** A result line can be read back: it names its host and reports exactly its verdict. */
  lemma ResultLineRoundTrip(host: string, v: Verdict)
    ensures ParseResultLine(host, ResultLine(host, v)) == Some(v)
  {
    var line := ResultLine(host, v);
    var p := |host| + 2;
    assert line[..p] == host + ": ";
    match v
    case Ok(n) =>
      DecimalRoundTrip(n);
      assert line[p..|line| - 1] == "OK " + Decimal(n);
    case Error(e) =>
      var body := line[p..|line| - 1];
      assert body == "Error " + e;
      assert body[0] == 'E';
      assert body[..6] == "Error " && body[6..] == e;
  }

  /** `checkPort`: what one probe sends and the one line it prints. */
  function Check(ip: string, port: int, outcome: DialOutcome): ProbeReport
  {
    ProbeReport(if outcome.Connected? then Payload else [], ResultLine(HostPort(ip, port), Classify(outcome)))
  }

  /**
   * The probe token is sent only after a successful dial, and the line printed names
   * the target and reports the verdict of the dial and the read. The first clause
   * only documents the send step of `Check`; the second, the round trip of the
   * printed line through `ParseResultLine`, is the property proved here.
   */
  lemma CheckReportsVerdict(ip: string, port: int, outcome: DialOutcome)
    ensures Check(ip, port, outcome).sent == (if outcome.Connected? then Payload else [])
    ensures ParseResultLine(HostPort(ip, port), Check(ip, port, outcome).line) == Some(Classify(outcome))
  {
    ResultLineRoundTrip(HostPort(ip, port), Classify(outcome));
  }

  /**
   * The output of a probe is one line: when neither the target nor an error text holds
   * a newline, the line's only newline is its last character.
   */
  lemma OneLinePerProbe(ip: string, port: int, outcome: DialOutcome)
    requires Newline !in ip
    requires outcome.DialFailed? ==> Newline !in outcome.err
    requires outcome.Connected? && outcome.read.ReadFailed? ==> Newline !in outcome.read.err
    ensures var line := Check(ip, port, outcome).line;
      |line| > 0 && line[|line| - 1] == Newline && Newline !in line[..|line| - 1]
  {
    var v := Classify(outcome);
    var host := HostPort(ip, port);
    var line := Check(ip, port, outcome).line;
    assert Newline !in Decimal(port) by {
      if port >= 0 {
        assert AllDigits(Decimal(port));
      } else {
        assert AllDigits(Decimal(port)[1..]);
        assert Decimal(port) == "-" + Decimal(port)[1..];
      }
    }
    assert Newline !in host;
    match v
    case Ok(n) =>
      assert AllDigits(Decimal(n));
      assert line[..|line| - 1] == host + ": OK " + Decimal(n);
    case Error(e) =>
      assert line[..|line| - 1] == host + ": Error " + e;
  }
}
