# nomad-check, modelled in Dafny

nomad-check is an Icinga/Nagios-style monitoring check. It submits a job
specification to a Nomad cluster. It then polls the cluster's allocation list
until the job's allocation is seen running, complete or failed, or until a
timeout passes. It reports one line `<LEVEL>: <message>` and exits with the
matching monitoring code: OK=0, WARNING=1, CRITICAL=2, UNKNOWN=3.

This project models the decision logic of `main.go`, apart from the Nomad API
calls around it:

- `icinga.dfy` (module `Icinga`): the four codes, `statusToString`, and the
  output line and exit code of `reportStatus`. The report is returned as a
  value instead of ending the process. A parser for the output line is the
  partner that shows the line can be read back.
- `allocations.dfy` (module `Allocations`): one poll cycle's scan of the
  allocation list. `Scan` is the reference definition. `ScanAllocations` is the loop
  as main.go writes it, proved equal to `Scan`.
- `poller.dfy` (module `Poller`): the poll loop as a state machine over a
  finite sequence of observations. Each observation holds the elapsed time in
  nanoseconds and the query result (`Listed(list)` or `QueryFailed(error)`).
  `Poll` is the reference definition and `CheckJobStatus` is the loop, proved equal.
  When no iteration stops, the result is `None`, meaning the process is still
  polling.
- `checkrunner.dfy` (module `CheckRunner`): the TLS decision of
  `createNomadClient` and the step order of `main`. The outcomes of client
  construction, job parsing, deregistration, registration and polling are
  inputs (an `Environment`). A run records the calls made, in order, and the
  report that ended it.
- `wrappers.dfy` (module `Wrappers`): `Option` and `Result`.

A matching allocation whose status is not `complete`, `running` or `failed`
(say `pending`) does not stop the scan. A later matching allocation with a
recognised status still decides the cycle (main.go:148-159). `Scan` and
`ScanAllocations` model this.

## Model

| member | source | states |
|---|---|---|
| Icinga.StatusToString | main.go:63-74 | Total over all ints. Codes 0, 1 and 2 give "OK", "WARNING" and "CRITICAL", in both directions. Every other code, including 3, gives "UNKNOWN". No name contains ':' |
| Icinga.LevelCode | main.go:63-74 | The reader that pairs with `statusToString`: exactly the four level names read back, each as a code in 0..3 whose name it is |
| Icinga.LevelAgreesWithExitCode | main.go:58-74 | The level printed and the exit status agree exactly when the code is one of 0..3 |
| Icinga.ReportStatus | main.go:58-60 | The exit status is the code. The output is `<LEVEL>: <message>` and a newline, and it parses back to exactly that level and message, whatever the message contains |
| Icinga.SplitLevelPrefix | main.go:59 | A level name without ':' followed by ": " and any message splits back into that name and message |
| Allocations.StatusVerdict | main.go:150-157 | Only complete, running and failed yield a verdict. They report WARNING "Job <id> is completed", OK "Job <id> running successfully" and CRITICAL "<id> Job failed" respectively |
| Allocations.Scan | main.go:148-159 | No verdict exactly when no allocation has the tracked job ID and a recognised status. Otherwise the verdict is that of the first such allocation in list order, and every earlier one is skipped. The code is always 0, 1 or 2 |
| Allocations.ScanAllocations | main.go:148-159 | The source's loop with early return computes the same verdict as `Scan` |
| Allocations.ScanAppend | main.go:148-159 | A verdict in a prefix of the list is final, whatever follows. A prefix without one is skipped entirely |
| Poller.PollStep | main.go:137-162 | A timeout (elapsed strictly beyond the limit) gives CRITICAL "Job timed out" whatever the query. Otherwise a query error gives CRITICAL with the error text. Otherwise the verdict of the first deciding allocation (`Scan`) ends the loop. The loop goes round again exactly when the scan finds nothing |
| Poller.Poll | main.go:137-162 | There is no report exactly when every iteration goes round again. Otherwise the report is that of the first iteration that stops, and its code is never UNKNOWN |
| Poller.CheckJobStatus | main.go:133-163 | The source's loop (timeout check, query, scan, repeat) computes the same report as `Poll` |
| Poller.PollAppend | main.go:137-162 | Once a report is emitted, later iterations cannot change it |
| Poller.TimeoutPrecedesQuery | main.go:138-146 | Once the timeout has passed, the query result makes no difference, and the report is CRITICAL |
| Poller.DeadlineItselfIsNotTimeout | main.go:138-140 | At exactly the timeout the query and scan still run. One nanosecond later the iteration times out |
| Poller.TimeoutEndsPolling | main.go:138-140 | Any iteration that sees the timeout passed ends the loop, there or earlier |
| Poller.PollingEndsByDeadline | main.go:137-161 | With the one-second sleep between iterations, the loop has reported by iteration max(timeout, 0) + 2, whatever the queries return |
| CheckRunner.CreateClientSettings | main.go:118-131 | The address is the configured one. TLS settings are attached if and only if both the certificate and the key are non-empty. When attached, CA, certificate, key and insecure flag are copied unchanged |
| CheckRunner.CaAndInsecureNeedCertAndKey | main.go:121-128 | Without both certificate and key, the CA certificate and insecure flag have no effect on the client settings |
| CheckRunner.TrackedJobId | main.go:108-113 | The tracked ID is the parsed job's ID when check-only is empty, and the check-only ID otherwise |
| CheckRunner.SubmitAndCheck | main.go:94-113 | In check-only mode only polling of the check-only ID happens, and the poll's report is the run's. Otherwise the job is purged (deregister with purge) and registered. A register error gives CRITICAL "Error registering job: <error>" without polling. On success the job's own ID is polled and the poll's report is the run's |
| CheckRunner.Main | main.go:76-116 | Client creation always comes first. A client error gives CRITICAL and nothing else happens. A parse error gives CRITICAL after parsing, even in check-only mode. Once both succeed, the run continues with submission and checking. When every step before polling succeeds, the run's report is that of polling the tracked ID. Every report's code is 0, 1 or 2, so the UNKNOWN fallback is never reached |
| CheckRunner.SubmitsOnlyWithoutCheckOnly | main.go:94-105 | The job is deregistered and registered if and only if check-only is empty and both the client and the job were obtained |
| CheckRunner.PollsOnlyAfterEarlierSteps | main.go:80-113 | Polling starts, for the tracked ID, if and only if every earlier step succeeded. A client, parse or register failure ends the run with CRITICAL |
| CheckRunner.DeregisterOutcomeIgnored | main.go:97-98 | The outcome of the purge does not affect the run |
| CheckRunner.CheckOnlyAgreesWithSubmission | main.go:94-113 | For every job, checking it by its ID reaches the same verdict as submitting and checking it, given successful registration and the same allocation states |

## Left out

- Flag parsing (`parseConfig`) is delegated to Go's flag package. `Config` is a given record.
- `api.DefaultConfig`, `api.NewClient`, `filepath.Abs`, `os.Open` and `jobspec.Parse` are library or I/O calls. Their outcomes are inputs. `tls = None` stands for whatever TLS defaults the library sets.
- The Nomad HTTP calls (`Deregister`, `Register`, `Allocations().List` with `resources=true`) are network calls. Their results are inputs, and only the call order is recorded.
- Wall clock and `time.Sleep`: elapsed time is an input per iteration, in nanoseconds. The float conversion in `Seconds() > float64(timeout)` is modelled as an exact comparison with `timeout * 10^9`, so rounding of very large values is not modelled.
- `fmt.Sprintf` with `%v`: messages are built by concatenation, and an error stands for its text.
- `os.Exit`: the report is returned instead. Truncation of exit codes to 8 bits by the operating system does not matter here, because only 0..3 are ever passed.
- The nil-error branch of `reportStatus` (main.go:51-56) prints a bare level without exiting. It depends on Go's typed-nil semantics and no caller reaches it.
- The infinite poll loop runs over a finite sequence of iterations. `None` means still polling, not a returned result. The final `UNKNOWN` report (main.go:115) is unreachable because the loop only ends by reporting. `CheckRunner.Main` states this as "no report has code 3".
- A job whose parsed ID is nil would make the Go program panic. `Job.id` is always present in the model.
