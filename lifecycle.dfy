/**
 * `main` after flag parsing, as a sequential trace: the pre-flight checks, the listener
 * start and startup delay, one probe per target behind the wait group, the grace
 * sleep, and the single `close(q)`. Each probe goroutine is run to completion in
 * target order; the listener goroutine is recorded as started.
 */
module Lifecycle {
  import opened Wrappers
  import opened Text
  import opened Servers
  import opened Probe

  /** The package-level `sync.WaitGroup`, reduced to its counter. */
  class WaitGroup {
    var count: int

    constructor ()
      ensures count == 0
    {
      count := 0;
    }

    /** `Add`: a negative counter would panic. */
    method Add(delta: int)
      requires count + delta >= 0
      modifies this
      ensures count == old(count) + delta
    {
      count := count + delta;
    }

    /** `Done`: a negative counter would panic. */
    method Done()
      requires count > 0
      modifies this
      ensures count == old(count) - 1
    {
      count := count - 1;
    }

    /** `Wait` returns once the counter is zero; with every probe already run, it must be zero here. */
    method Wait()
      requires count == 0
    {
    }
  }

  /** The quit channel `q`, of interest only for whether it is closed. */
  class QuitChannel {
    var closed: bool

    constructor ()
      ensures !closed
    {
      closed := false;
    }

    /** `close(q)`: closing a closed channel would panic. */
    method Close()
      requires !closed
      modifies this
      ensures closed
    {
      closed := true;
    }
  }

  /** The parsed flags and arguments of the command line. */
  datatype Config = Config(
    port: int, timeout: int, proto: string, bind: string,
    sleep: int, delay: int, noListen: bool, targets: seq<string>)

  /** One observable step of `main`. */
  datatype Step =
    | ListenerStarted(protocol: Protocol, addr: string)
    | Slept(seconds: int)
    | WaitAdded(n: int)
    | Probed(ip: string, network: string, host: string, timeoutSecs: int, sent: seq<byte>)
    | Waited
    | QuitClosed

  /** How the process ends. */
  datatype Exit = Fatal(msg: string) | Finished

  const NoPortMsg := "Please specify port"
  const NoTargetsMsg := "Please specify at least one IP to check"

  /** The listener's failure message: `log.Fatal` is handed a format string it does not expand. */
  function ServerStartMsg(cfg: Config): string
  {
    "Error starting server on %s:%d" + cfg.bind + Decimal(cfg.port)
  }

  /** `fmt.Sprintf("%s:%d", *bind, *port)`. */
  function ListenAddr(cfg: Config): string
  {
    cfg.bind + ":" + Decimal(cfg.port)
  }

  /** The configurations `main` runs to the end with. */
  predicate Runs(cfg: Config)
  {
    cfg.port != 0 && |cfg.targets| > 0 && (cfg.noListen || ParseProtocol(cfg.proto).Success?)
  }

  function Prelude(cfg: Config): seq<Step>
    requires Runs(cfg)
  {
    if cfg.noListen then [] else [ListenerStarted(ParseProtocol(cfg.proto).value, ListenAddr(cfg)), Slept(cfg.delay)]
  }

  function ProbeStep(cfg: Config, ip: string, outcome: DialOutcome): Step
  {
    Probed(ip, cfg.proto, HostPort(ip, cfg.port), cfg.timeout, Check(ip, cfg.port, outcome).sent)
  }

  function ProbeSteps(cfg: Config, outcomes: seq<DialOutcome>): seq<Step>
    requires |outcomes| == |cfg.targets|
  {
    seq(|cfg.targets|, i requires 0 <= i < |cfg.targets| => ProbeStep(cfg, cfg.targets[i], outcomes[i]))
  }

  function ProbeLines(cfg: Config, outcomes: seq<DialOutcome>): seq<string>
    requires |outcomes| == |cfg.targets|
  {
    seq(|cfg.targets|, i requires 0 <= i < |cfg.targets| => Check(cfg.targets[i], cfg.port, outcomes[i]).line)
  }

  /** The steps of a run that passes the pre-flight checks. */
  function Schedule(cfg: Config, outcomes: seq<DialOutcome>): seq<Step>
    requires Runs(cfg) && |outcomes| == |cfg.targets|
  {
    Prelude(cfg) + [WaitAdded(|cfg.targets|)] + ProbeSteps(cfg, outcomes) + [Waited, Slept(cfg.sleep), QuitClosed]
  }

  /** The number of `close(q)` steps. */
  function Closes(trace: seq<Step>): nat
  {
    if trace == [] then 0 else (if trace[0].QuitClosed? then 1 else 0) + Closes(trace[1..])
  }

  /** The targets probed, in order. */
  function ProbedTargets(trace: seq<Step>): seq<string>
  {
    if trace == [] then [] else (if trace[0].Probed? then [trace[0].ip] else []) + ProbedTargets(trace[1..])
  }

  lemma {:induction false} CountsAppend(a: seq<Step>, b: seq<Step>)
    ensures Closes(a + b) == Closes(a) + Closes(b)
    ensures ProbedTargets(a + b) == ProbedTargets(a) + ProbedTargets(b)
  {
    if a != [] {
      assert (a + b)[1..] == a[1..] + b;
      CountsAppend(a[1..], b);
    } else {
      assert a + b == b;
    }
  }

  lemma {:induction false} ProbesOnly(t: seq<Step>)
    requires forall i :: 0 <= i < |t| ==> t[i].Probed?
    ensures Closes(t) == 0
    ensures ProbedTargets(t) == seq(|t|, i requires 0 <= i < |t| => t[i].ip)
  {
    if t != [] {
      ProbesOnly(t[1..]);
    }
  }

  lemma {:induction false} QuietSteps(t: seq<Step>)
    requires forall k :: 0 <= k < |t| ==> !t[k].Probed? && !t[k].QuitClosed?
    ensures Closes(t) == 0 && ProbedTargets(t) == []
  {
    if t != [] {
      QuietSteps(t[1..]);
    }
  }

  /** The steps before the probes hold no probe, no wait and no close. */
  lemma PreludeQuiet(cfg: Config)
    requires Runs(cfg)
    ensures var a := Prelude(cfg) + [WaitAdded(|cfg.targets|)];
      && Closes(a) == 0 && ProbedTargets(a) == []
      && forall k :: 0 <= k < |a| ==> !a[k].Probed? && !a[k].Waited?
  {
    QuietSteps(Prelude(cfg) + [WaitAdded(|cfg.targets|)]);
  }

  /** The steps after the probes: the wait, the grace sleep and one close, last. */
  lemma EpilogueCloses(sleep: int)
    ensures var b := [Waited, Slept(sleep), QuitClosed];
      Closes(b) == 1 && ProbedTargets(b) == []
  {
    var b := [Waited, Slept(sleep), QuitClosed];
    QuietSteps(b[..2]);
    assert [QuitClosed][1..] == [];
    assert Closes([QuitClosed]) == 1 && ProbedTargets([QuitClosed]) == [];
    CountsAppend(b[..2], [QuitClosed]);
    assert b == b[..2] + [QuitClosed];
  }

  /** One probe per target, in target order, and `q` closed exactly once, as the last step. */
  lemma ScheduleCounts(cfg: Config, outcomes: seq<DialOutcome>)
    requires Runs(cfg) && |outcomes| == |cfg.targets|
    ensures var s := Schedule(cfg, outcomes);
      ProbedTargets(s) == cfg.targets && Closes(s) == 1 && s[|s| - 1] == QuitClosed
  {
    var a := Prelude(cfg) + [WaitAdded(|cfg.targets|)];
    var p := ProbeSteps(cfg, outcomes);
    var b := [Waited, Slept(cfg.sleep), QuitClosed];
    assert Schedule(cfg, outcomes) == a + p + b;
    PreludeQuiet(cfg);
    EpilogueCloses(cfg.sleep);
    CountsAppend(a + p, b);
    CountsAppend(a, p);
    ProbesOnly(p);
    assert seq(|p|, i requires 0 <= i < |p| => p[i].ip) == cfg.targets;
  }

  /** Every probe comes after the listener start and before the wait on the wait group. */
  lemma ScheduleOrder(cfg: Config, outcomes: seq<DialOutcome>)
    requires Runs(cfg) && |outcomes| == |cfg.targets|
    ensures var s := Schedule(cfg, outcomes);
      && (forall i, j :: 0 <= i < |s| && 0 <= j < |s| && s[i].Probed? && s[j].Waited? ==> i < j)
      && (forall i, j :: 0 <= i < |s| && 0 <= j < |s| && s[i].ListenerStarted? && s[j].Probed? ==> i < j)
  {
    var a := Prelude(cfg) + [WaitAdded(|cfg.targets|)];
    var p := ProbeSteps(cfg, outcomes);
    var b := [Waited, Slept(cfg.sleep), QuitClosed];
    PreludeQuiet(cfg);
    assert Schedule(cfg, outcomes) == a + p + b;
    StepsInOrder(a, p, b);
  }

  lemma StepsInOrder(a: seq<Step>, p: seq<Step>, b: seq<Step>)
    requires forall k :: 0 <= k < |a| ==> !a[k].Probed? && !a[k].Waited?
    requires forall k :: 0 <= k < |p| ==> p[k].Probed?
    requires forall k :: 0 <= k < |b| ==> !b[k].Probed? && !b[k].ListenerStarted?
    ensures var s := a + p + b;
      && (forall i, j :: 0 <= i < |s| && 0 <= j < |s| && s[i].Probed? && s[j].Waited? ==> i < j)
      && (forall i, j :: 0 <= i < |s| && 0 <= j < |s| && s[i].ListenerStarted? && s[j].Probed? ==> i < j)
  {
    var s := a + p + b;
    forall i | 0 <= i < |s|
      ensures s[i].Probed? ==> |a| <= i < |a| + |p|
      ensures s[i].Waited? ==> |a| + |p| <= i
      ensures s[i].ListenerStarted? ==> i < |a|
    {
      if i < |a| {
        assert s[i] == a[i];
      } else if i < |a| + |p| {
        assert s[i] == p[i - |a|];
      } else {
        assert s[i] == b[i - |a| - |p|];
      }
    }
  }

  /** `checkPort` as its goroutine runs it: the probe, then the deferred `waitgroup.Done()`. */
  method CheckPort(wg: WaitGroup, ip: string, port: int, proto: string, timeoutSecs: int, outcome: DialOutcome)
    returns (step: Step, line: string)
    requires wg.count > 0
    modifies wg
    ensures wg.count == old(wg.count) - 1
    ensures step == Probed(ip, proto, HostPort(ip, port), timeoutSecs, Check(ip, port, outcome).sent)
    ensures line == Check(ip, port, outcome).line
  {
    var host := HostPort(ip, port);
    var report := Check(ip, port, outcome);
    step := Probed(ip, proto, host, timeoutSecs, report.sent);
    line := report.line;
    wg.Done();
  }

  lemma TakeOneMore<T>(s: seq<T>, i: nat)
    requires i < |s|
    ensures s[..i + 1] == s[..i] + [s[i]]
  {
  }

  /** The `for _, ip := range flag.Args()` loop: one probe per target, each signalling the wait group once. */
  method RunProbes(wg: WaitGroup, cfg: Config, outcomes: seq<DialOutcome>) returns (steps: seq<Step>, lines: seq<string>)
    requires |outcomes| == |cfg.targets|
    requires wg.count == |cfg.targets|
    modifies wg
    ensures wg.count == 0
    ensures steps == ProbeSteps(cfg, outcomes) && lines == ProbeLines(cfg, outcomes)
  {
    ghost var allSteps, allLines := ProbeSteps(cfg, outcomes), ProbeLines(cfg, outcomes);
    steps, lines := [], [];
    var i := 0;
    while i < |cfg.targets|
      invariant i <= |cfg.targets|
      invariant wg.count == |cfg.targets| - i
      invariant steps == allSteps[..i] && lines == allLines[..i]
    {
      var step, line := CheckPort(wg, cfg.targets[i], cfg.port, cfg.proto, cfg.timeout, outcomes[i]);
      TakeOneMore(allSteps, i);
      TakeOneMore(allLines, i);
      steps, lines := steps + [step], lines + [line];
      i := i + 1;
    }
    assert allSteps[..i] == allSteps && allLines[..i] == allLines;
  }

  /**
   * `main` from the port check on: a zero port or an empty target list stops the run
   * before anything starts, and so does a protocol the listener cannot use; otherwise
   * every target is probed once and `q` is closed once, after all probes are done.
   * `outcomes[i]` is how the probe of `cfg.targets[i]` turns out.
   */
  method PortTester(cfg: Config, outcomes: seq<DialOutcome>) returns (exit: Exit, trace: seq<Step>, lines: seq<string>)
    requires |outcomes| == |cfg.targets|
    ensures cfg.port == 0 ==> exit == Fatal(NoPortMsg)
    ensures cfg.port != 0 && cfg.targets == [] ==> exit == Fatal(NoTargetsMsg)
    ensures cfg.port != 0 && cfg.targets != [] && !cfg.noListen && ParseProtocol(cfg.proto).Failure? ==>
      exit == Fatal(ServerStartMsg(cfg))
    ensures exit.Fatal? ==> trace == [] && lines == []
    ensures exit == Finished <==> Runs(cfg)
    ensures exit == Finished ==> trace == Schedule(cfg, outcomes) && lines == ProbeLines(cfg, outcomes)
  {
    if cfg.port == 0 {
      return Fatal(NoPortMsg), [], [];
    }
    if |cfg.targets| < 1 {
      return Fatal(NoTargetsMsg), [], [];
    }
    var wg := new WaitGroup();
    var q := new QuitChannel();
    trace, lines := [], [];
    if !cfg.noListen {
      var addr := ListenAddr(cfg);
      var s := NewServer(cfg.proto, addr);
      if s.Failure? {
        return Fatal(ServerStartMsg(cfg)), [], [];
      }
      trace := [ListenerStarted(ParseProtocol(cfg.proto).value, addr), Slept(cfg.delay)];
    }
    wg.Add(|cfg.targets|);
    var probes;
    probes, lines := RunProbes(wg, cfg, outcomes);
    wg.Wait();
    q.Close();
    trace := trace + [WaitAdded(|cfg.targets|)] + probes + [Waited, Slept(cfg.sleep), QuitClosed];
    exit := Finished;
  }
}
