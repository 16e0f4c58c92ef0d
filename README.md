# Reverse-connect relay: trust policy, session lifecycle and reconnect loop

This project models the control logic of the `relay` command of resocks, a reverse-connect
SOCKS5 relay. The relay runs behind a NAT or firewall. It dials out over TLS to a public
listener, runs a yamux multiplexer in server role over that connection, and serves a SOCKS5
server over the multiplexer. The model covers three functions of `relay.go`:

- `clientTLSConfig`: the trust-policy decision table over the `insecure` flag and the presence
  of a connection key. It is modelled as pure functions in `tls_policy.dfy`.
- `connectBackAndRelay`: one session. It dials, starts the multiplexer, creates the SOCKS5
  server and serves, with deferred closes. It is modelled in `session.dfy` as a method over
  abstract stage outcomes. The method keeps an explicit stack of deferred closes and records a
  trace of events.
- `runRemoteProxyRelay`: the build-once, retry-forever loop. It is modelled in
  `relay_loop.dfy` as a method with a `while` loop over a finite sequence of session outcomes.

`errors.dfy` models Go's `fmt.Errorf("<context>: %w", cause)` wrapping. `trace.dfy` holds the
event type and event counting. `wrappers.dfy` holds Option, Result and Outcome.

Collaborators are parameters. `ParseConnectionKey` and `ClientTLSConfig` are the function
parameters `parse: KeyParser` and `configure: ConfigBuilder`, and either may fail. Dialing,
`yamux.Server`, `socks5.New` and `Serve` are the four `Outcome`s of a `SessionOutcome`. The loop
is run against a finite sequence of session outcomes. When that sequence runs out and the
source would still be looping, the method returns `Running`. Only a `Returned` exit means that
the Go function returned.

Two behaviours of `runRemoteProxyRelay` are easy to miss:

- With a non-zero reconnect delay, a session that ends cleanly is also followed by a sleep and
  another dial (relay.go:67-73). Clean termination ends the loop only when the delay is zero.
- The test is `reconnectAfter == 0` on a signed `time.Duration`. A negative delay therefore
  also means "retry forever", and the model keeps the delay as an `int`.

## Model

| member | source | states |
|---|---|---|
| Errors.Wrap | relay.go:54 | a `%w` wrapper unwraps to its cause, keeps the cause's root, and its message is the context, ": ", then the cause's message |
| Errors.WrapKeepsChain | relay.go:54 | wrapping keeps every error of the chain reachable by unwrapping, including the wrapped error itself |
| Errors.RootCauseReachable | relay.go:110-112 | every error chain unwraps down to a root cause that wraps nothing |
| RelayLoop.BuildErrorKeepsCause | relay.go:52-55 | when key parsing or TLS configuration fails, the error the relay returns still unwraps, through "build TLS config" and the step's own context, to the collaborator's error and has the same root cause |
| TlsPolicy.SelectArm | relay.go:108-126 | the `default:` arm written first runs exactly when `!insecure && key != ""`; the chosen arm's case holds, and no other case holds, so the four arms partition the inputs |
| TlsPolicy.ConfigFromKey | relay.go:110-120 | succeeds exactly when parsing and configuring both succeed, and then yields the collaborator's configuration unchanged; a parse error comes back as "parse connection key: …" and a configure error as "configure TLS: …" |
| TlsPolicy.ClientTlsConfig | relay.go:107-142 | the whole decision table: secure mode without a key fails with "connection key is required"; insecure mode without a key gives skip-verify, no client certificate and no server name; with a key it fails exactly when a collaborator fails, with wrapped errors; the secure arm returns the built configuration unmodified; the insecure arm keeps its client certificate, sets skip-verify and clears the server name |
| TlsPolicy.KeyNotParsedWhenEmpty | relay.go:122-125 | with an empty key the result is the same whatever the parser and the configuration builder do, so neither is consulted |
| TlsPolicy.ClientTlsConfigFollowsTrustTable | relay.go:107-142 | when the builder yields identity configurations with verification on, every successful result realises the trust mode of the independent table (verify only in `Verified`, a client identity in every mode except `InsecureNoIdentity`), and the refused combination always fails |
| Session.FirstFailure | relay.go:78-102 | picks the earliest failing stage, with every earlier stage passing; it is `None` exactly when every stage passes |
| Session.Unwind | relay.go:85-92 | deferred closes run last-registered first: the i-th close is of the (n-1-i)-th registered resource |
| Session.ConnectBackAndRelay | relay.go:77-105 | the step-by-step session with a defer stack returns `SessionResult` and performs exactly `SessionTrace` |
| Session.DialFailureClosesNothing | relay.go:78-81 | a failed dial returns "dial: …", makes no further call and closes nothing |
| Session.ConnectionClosedOnEveryExit | relay.go:85-104 | once the dial succeeds, the connection is closed exactly once, as the session's last event, on every exit path |
| Session.MultiplexerClosedBeforeConnection | relay.go:85-92 | once the multiplexer exists, the session ends by closing the multiplexer and then the connection, and closes nothing else |
| Session.ClosesReverseAcquisition | relay.go:85-104 | the closes are the session's last events and are exactly the acquired resources in reverse order |
| Session.FailureTaggedWithStage | relay.go:78-102 | a session fails exactly when some stage fails; its error wraps that stage's error, its message starts with that stage's context ("dial", "initialize multiplexer", "initialize socks5 server", "socks5 server"), and the trace records that stage's failure |
| Session.NoCallAfterFailure | relay.go:78-99 | a stage is called exactly when every earlier stage succeeded |
| Session.SessionDialsOnce | relay.go:77-105 | a session dials exactly once, and never reports an error or sleeps |
| RelayLoop.RunRemoteProxyRelay | relay.go:49-75 | a configuration error returns "build TLS config: …" before any session; with a zero delay and at least one session outcome, exactly one session runs, its result is returned and the trace is that session's alone, so nothing is reported and nobody sleeps (see `Session.SessionDialsOnce`); with any other delay the loop never returns and its trace is one round per session |
| RelayLoop.FailureCount | relay.go:59-65 | counts the sessions that end with an error: it is zero exactly when no session fails, and the number of sessions exactly when every session fails |
| RelayLoop.RetryTraceStep | relay.go:57-74 | each pass of the loop extends the trace by exactly one round |
| RelayLoop.RoundShape | relay.go:58-73 | every round begins with a dial and ends with a sleep of exactly the configured delay |
| RelayLoop.RoundCounts | relay.go:58-73 | a round dials once and sleeps once, whether the session succeeded or failed, and reports once exactly when it failed |
| RelayLoop.RoundReportsSessionError | relay.go:59-65 | the error a round reports is exactly its session's error: a failure is reported, not returned |
| RelayLoop.RetryTraceAppend | relay.go:57-74 | running the loop over two runs of outcomes is the concatenation of the two runs' traces |
| RelayLoop.RetryCounts | relay.go:57-74 | after n sessions the loop has dialled n times and slept n times, and it has reported exactly the failed sessions |
| RelayLoop.RetrySleepsAreConstant | relay.go:71-73 | every sleep lasts exactly the configured delay: constant delay, no backoff |
| RelayLoop.SleepBetweenSessions | relay.go:57-74 | the dial of session k+1 comes right after round k, and round k ends with a sleep of the configured delay |

## Left out

- `relayCommand` (relay.go:14-47): cobra command construction, flag registration and help text.
- `withDefaultPort`, `fromEnvWithFallback`, `yamuxCfg`, `binaryName`, `ParseConnectionKey` and `ClientTLSConfig`: they are defined in files that are not part of this model. The last two are function parameters that may fail. Address normalisation is not modelled.
- `tls.DialWithDialer`, `yamux.Server`, `socks5.New` and `Serve`: network I/O and foreign libraries, with the stream concurrency inside the multiplexer and the SOCKS5 server. Each is only a success or failure outcome. The dial address, the timeout and the TLS configuration passed to the dial have no effect on those outcomes in the model.
- `time.Sleep`: only a `Slept(reconnectAfter)` event is recorded. No time passes.
- `fmt.Printf` status lines (relay.go:64, 71, 83): only the "error: …" line is recorded, as a `Reported` event. The "connected to" and "reconnecting after" lines are not recorded.
- The errors returned by `Close` are ignored in the source (`//nolint:errcheck`), and the model does not represent them.
- RelayLoop.RunRemoteProxyRelay: the source loops forever when the delay is non-zero. The model runs it only over a finite sequence of session outcomes and then reports `Running`.
