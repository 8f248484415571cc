# go-port-tester, modelled in Dafny

`port_tester.go` is a port reachability tester. It can start a local TCP or UDP
echo listener on a port. It then probes every target host on that port. For each
target it dials, sends `TEST\n`, reads one reply and prints one line:
`host:port: OK n` or `host:port: Error e`.

This project models the decision logic of that file. Every socket call is
replaced by the outcome it returns.

- **Protocol dispatch** (`Servers`). `NewServer` lower-cases the protocol name. It
  builds a TCP or a UDP server that keeps the address unchanged, and refuses every
  other name with `Invalid protocol given`.
- **Listener loops** (`Serving`, `TcpListener`, `UdpListener`). Each turn of a
  `for { select { case <-quit: … default: … } }` loop is one event. The event is
  either "quit observed" or the outcome of one `Accept` or `ReadFromUDP` call. The
  loop methods run over a finite sequence of events. If no event observes quit,
  the loop is still serving when the events run out.
- **TCP handler**. This is a transducer from the bytes the peer sends to the bytes
  written back. `bufio.Reader` becomes a `LineReader` class that advances over the
  input, and `ReadString('\n')` is a scanning loop.
- **UDP handler**. Each read fills a fresh 2048-byte array. The reply goes to the
  sender: `Request recieved: ` followed by the bytes read.
- **Probe** (`Probe`). The dial and read outcomes are inputs. The result is the bytes
  sent and the single line printed.
- **`main`** (`Lifecycle`). `main` is modelled as a sequential trace: the pre-flight
  checks, the listener start, one probe per target guarded by a `WaitGroup` class,
  the grace sleep, and a single `close(q)` on a `QuitChannel` class.

Go strings are byte strings. The model writes them as `seq<char>`, and payload
bytes as the subset type `Text.byte` (characters below 256).

Some behaviours of the code are easy to misread; the model follows the code:

- A listener that fails to bind is not fatal. `main` ignores the error that
  `s.Run(q)` returns (port_tester.go:208), and the probes go ahead.
- Nothing ever closes the listener from outside. After quit, the TCP `Run` closes
  its listener through its deferred `Close` (port_tester.go:51). The UDP `Run` has
  no such `Close`, so its socket stays open (`UDPServer.Run` ensures
  `server == Open`).
- Only `NewServer` is case-insensitive. The probes are dialled with the protocol
  name exactly as given (`Step.Probed.network`).
- The `break` statements at port_tester.go:73 and :135 leave only the `select`. So
  accept and read errors never end a loop. Both loops return `nil` only after quit.
  The final `return` statements (port_tester.go:80, :144) cannot be reached.
- Only the dial has a timeout. `conn.Read` at port_tester.go:173 has no deadline, so
  a target that accepts the probe and never answers holds that probe forever. So
  does a UDP target whose reply is lost or filtered. The probe then prints no line
  and never calls `Done`, so `main` never gets past `waitgroup.Wait()` (:217) and
  never closes `q`. The model does not cover this case (see below).

## Model

| member | source | states |
|---|---|---|
| `Text.ToLower` | port_tester.go:25 | `strings.ToLower` keeps the length and lowers every character. |
| `Text.ToLowerMatchesCaseVariants` | port_tester.go:25-34 | A name lowers to "tcp" or "udp" exactly when it is a letter-case spelling of that word. |
| `Text.DecimalRoundTrip` | port_tester.go:161 | The `%d` rendering of a port or a count parses back to the same integer, negatives included. |
| `Serving.StopAt` | port_tester.go:65-70 | The turns before the first one that observes quit: all of them are socket calls, and the turn at the index found is quit. |
| `Serving.ExitAfter` | port_tester.go:64-81 | A listener loop has returned exactly when some turn observed quit, and it then returned a nil error. |
| `Servers.ParseProtocol` | port_tester.go:24-36 | TCP for exactly the case variants of "tcp", UDP for exactly those of "udp", and "Invalid protocol given" for every other name. |
| `Servers.NewServer` | port_tester.go:24-36 | A fresh server of the protocol `ParseProtocol` picks, holding `addr` unchanged and no socket yet; otherwise the error. |
| `TcpListener.TCPServer.Run` | port_tester.go:46-54 | A listen error is returned and leaves a nil listener. Otherwise the accept loop runs, and the listener is shut once the loop returns. |
| `TcpListener.TCPServer.Close` | port_tester.go:57-59 | Closes the listener; closing an already closed one reports an error. |
| `TcpListener.TCPServer.HandleConnections` | port_tester.go:64-81 | `Accept` runs once per turn before quit and never after it. Each accepted connection gets one handler, in order. Errors and nil connections never end the loop, which returns nil only after quit. |
| `TcpListener.ConnectionsAppend` | port_tester.go:70-77 | Dispatch is decided turn by turn: a run of turns dispatches what its parts dispatch, in order. |
| `TcpListener.FailedAcceptDispatchesNothing` | port_tester.go:71-74 | A failed or nil accept dispatches no handler and changes no other dispatch. |
| `TcpListener.LineReader.ReadString` | port_tester.go:90 | Returns the bytes up to and including the next newline. At the end of input it returns the partial data with an error. |
| `TcpListener.TCPServer.HandleConnection` | port_tester.go:85-100 | The bytes written back are `Transcript(input)`: each line echoed behind "Request received: ", then "failed to read input". |
| `TcpListener.TranscriptOfLines` | port_tester.go:89-98 | For input made of complete lines and an unterminated tail, the output is each line, newline included, behind the label in input order, then the failure message exactly once and nothing after it. |
| `TcpListener.HandlerEchoesCompleteLines` | port_tester.go:89-98 | Every input splits into newline-terminated lines and a newline-free tail, and the handler echoes exactly those lines (`SplitUnique` shows no other split exists). |
| `TcpListener.SplitUnique` | port_tester.go:89-98 | Two splits of the same input into newline-terminated lines and a newline-free tail are equal, so the handler's reads cut the input in exactly one way. |
| `TcpListener.TrailingDataNeverEchoed` | port_tester.go:90-95 | The unterminated tail never shows in the output: any two tails give the same output. |
| `UdpListener.Fitted` | port_tester.go:131-132 | What a read keeps of a datagram is a prefix of it, at most 2048 bytes long, and all of it when it fits. |
| `UdpListener.ReadFromUDP` | port_tester.go:131-132 | Fills the buffer with as much of the datagram as fits and returns the sender; a read error returns nothing. |
| `UdpListener.UDPServer.Run` | port_tester.go:110-122 | A resolve failure returns "could not resolve UDP addr" and leaves `server` as it was. A listen failure returns "could not listen on UDP" with a nil socket. Otherwise the read loop runs, and the socket is still open after it returns. |
| `UdpListener.UDPServer.Close` | port_tester.go:152-154 | Closes the socket; closing an already closed one reports an error. |
| `UdpListener.UDPServer.HandleConnections` | port_tester.go:124-145 | Reads run once per turn before quit and never after it. Read errors and nil senders are skipped; every other datagram is answered, in order. The loop returns nil only after quit. |
| `UdpListener.AnswerOfRead` | port_tester.go:131-141 | What one read into a fresh 2048-byte buffer returns decides the turn's reply: a reply to the sender carrying the bytes read when there is no error and the sender is known, and no reply otherwise. |
| `UdpListener.UnansweredReadSkipped` | port_tester.go:133-139 | A read error or a datagram without a sender causes no reply and changes no other reply. |
| `UdpListener.RepliesAnswerSenders` | port_tester.go:131-148 | Every reply goes to the sender of a datagram of the run. It carries "Request recieved: " and that datagram's first bytes, at most 2048 of them. |
| `UdpListener.UDPServer.HandleConnection` | port_tester.go:147-149 | One datagram back to `addr`: stripping the label from it gives back exactly the bytes read. |
| `Probe.Classify` | port_tester.go:162-180 | OK exactly when both the dial and the read succeed, with a count of at most 4096 that is what the read delivered. Otherwise the dial's error, or the read's. |
| `Probe.ResultLineRoundTrip` | port_tester.go:165-180 | A result line names its host and can be read back to exactly the verdict it reports. |
| `Probe.CheckReportsVerdict` | port_tester.go:158-181 | `TEST\n` is sent only after a successful dial. The one line printed names `ip:port` and reports the verdict of the dial and the read. |
| `Probe.OneLinePerProbe` | port_tester.go:161-180 | A probe prints exactly one line: when neither the target nor an error holds a newline, the only newline is the last character. |
| `Lifecycle.WaitGroup.Add` | port_tester.go:213 | Adds one per target to the wait-group counter, which may not go negative. |
| `Lifecycle.WaitGroup.Done` | port_tester.go:159 | Takes one off the counter, which may not go negative. |
| `Lifecycle.QuitChannel.Close` | port_tester.go:220 | Closes `q`; it must not be closed already. |
| `Lifecycle.CheckPort` | port_tester.go:158-181 | One probe as its goroutine runs it: the step and line of `Probe.Check`, and exactly one `Done`. |
| `Lifecycle.RunProbes` | port_tester.go:213-216 | One probe per target, in order; afterwards the wait-group counter is back to zero. |
| `Lifecycle.ScheduleCounts` | port_tester.go:213-220 | Over a whole run, each target is probed exactly once, in target order, and `q` is closed exactly once, as the last step. |
| `Lifecycle.ScheduleOrder` | port_tester.go:202-217 | Every probe comes after the listener start and before the wait on the wait group. |
| `Lifecycle.PortTester` | port_tester.go:192-220 | Port 0, then an empty target list, then an unusable listener protocol each stop the run with its message, before any server or probe starts. Otherwise the run follows `Schedule` and prints one `Probe.Check` line per target. |

## Left out

- Sockets. `net.Listen`, `Accept`, `ResolveUDPAddr`, `ListenUDP`, `ReadFromUDP`,
  `WriteToUDP`, `DialTimeout`, `Read`, `Write` and `Close` belong to the Go runtime
  and the OS. They appear only as the outcomes they return (events, error strings,
  byte sequences). A read that fails mid-stream is modelled as the end of the peer's
  input. A probe's read is modelled as returning the reply bytes the peer has sent,
  capped at the 4096-byte buffer.
- Concurrency. Goroutines, the scheduler and channel blocking are not modelled. The
  probe goroutines run one after another in target order, so the interleaving of output
  lines is not modelled. The listener goroutine is recorded as started, and its
  `Run` is not run alongside the probes. Its `NewServer` failure is modelled as
  ending the process before any probe, as the startup delay intends; the real race
  is not. The unsynchronised writes to `s` and `err` inside that goroutine are not
  modelled.
- `Lifecycle.PortTester` assumes every probe's read returns, with data or an error.
  Every `Probe.ReadOutcome` is such a return, so `PortTester` promises `Finished`
  whenever the pre-flight checks pass. A read without a deadline that never returns
  (port_tester.go:173) is not modelled. With such a read the real program prints no
  line for that target and hangs at `waitgroup.Wait()` (:217) without closing `q`.
- `Lifecycle.WaitGroup.Wait`: blocking is not modelled. In this sequential model the
  counter must already be zero, and the model proves that it is.
- Time. `time.Sleep`, the startup delay, the drain grace and the dial timeout appear
  only as steps and parameters.
- Flag parsing, `log.Printf`/`log.Println` output, and how `log.Fatal` exits the process
  are left out. A fatal exit is the `Exit.Fatal` value with its message. The
  timestamp prefix is not modelled. The listener-failure message is modelled as
  `log.Fatal` builds it: its operands are joined with no separator, and the `%s:%d`
  in its first operand is left unexpanded (`Lifecycle.ServerStartMsg`).
- Error values are opaque strings. The model does not produce Go's own error texts,
  except "use of closed network connection" for a second `Close`.
- Non-ASCII case mapping. `Text.ToLower` lowers ASCII letters only. No non-ASCII
  letter lowers to a letter of "tcp" or "udp", so the dispatch decision is unaffected.
- The `log.Printf` of each incoming connection's address and the `log.Println` of UDP
  read errors are left out, because they are logging only.
