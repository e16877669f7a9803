# ULS producer supervisor — a Dafny model of `UlsInputCli`

The Unified Log Streamer (ULS) starts one producer CLI process. The producer is the EAA, ETP or MFA command-line tool. It streams that product's log or event records to standard output. The class `UlsInputCli` in `bin/modules/UlsInputCli.py` does two jobs:

- **Command construction.** `_feed_selector` and `_format_selector` check the requested feed and output format or fall back to defaults. `_prep_proxy`, `_prep_edgegridauth` and `_uls_useragent` build the flag tokens. The per-product branches of `proc_create` assemble the argument vector `[python, producer binary, flags…, subcommand…]`. The flags are spliced in at index 2, one group after another.
- **Supervision.** `proc_create` runs a bounded retry loop. Each attempt spawns the producer and waits a settle delay. It then asks `check_proc` whether the process is still alive. The loop stops at the first live process and marks the supervisor running. It gives up with a fatal exit once `rerun_retries` attempts have failed.

The model has three modules:

- `Wrappers` (`wrappers.dfy`): `Option`, `Result` and `Outcome`.
- `CommandBuilder` (`command_builder.dfy`): the pure selectors and flag builders, and `BuildCommand`, the argument vector in its final token order. It also has `AssembleCommand`, a method that builds the vector the way the source does, by successive insertions at index 2, and is proved equal to `BuildCommand`.
- `Supervisor` (`supervisor.dfy`): the retry state machine. `Step` is one try/except pass, `RunLoop` is the `while` loop, and `Supervise` is the whole of `proc_create`. It also has the class `UlsInputCli`, whose fields `running`, `proc` and `procOutput` its methods `TryStart`, `CheckProc` and `ProcCreate` update in place.

How the model stands in for the Python runtime:

- Python's `None` is `None` of `Option<string>`, and the test `not x` is `!Truthy(x)`.
- An f-string renders `None` as `"None"` (`Render`).
- `str.lower` and `shlex.split` are passed in as the functions `lower` and `tokenize`. `tokenize` gives `None` where `shlex.split` raises `ValueError`, for example on an unbalanced quote.
- The global configuration module is a `Config` value.
- Each attempt's outcome comes from an oracle `outcomes: nat -> Attempt`, indexed by `rerun_counter`. An attempt either had its spawn raise, or spawned a process and later got one of three `poll()` results.
- All fatal `sys.exit(1)` calls become `Fail(Fatal)`. The `Fatal` cases are `InvalidFeed`, `InvalidFormat`, `UnknownProduct` and `RetriesExhausted`.
- A raw command that `shlex.split` cannot split becomes `Fail(UnsplittableRawCommand)`. The split at lines 145, 160 and 175 lies outside the `try` that starts at line 181. Its `ValueError` therefore leaves `proc_create` before any spawn, with no retry and no `sys.exit(1)`.

Points of the code that are easy to miss:

- Line 140 lies outside the `CONHEALTH`/else split, so the EAA connector-health command gets `--json` appended too when the format resolves to "JSON" (`ConnectorHealthCommand`).
- The raw-mode command starts with the Python interpreter and the producer binary, like the structured one.
- In raw mode the user-agent tag uses the feed exactly as given, so `None` renders as `"None"`.
- The feed is selected again on every loop iteration, from the rebound `feed` variable. `BuildCommandStable` shows this rebuilds the same command, because selecting a feed is idempotent.
- The settle delay is the literal `time.sleep(1)` at line 191. The constructor copies `run_delay` at line 61, which its comment calls the wait before the first health check, but nothing in the file reads it. The model copies it into `runDelay` and leaves it unused, as the source does.

## Model

| member | source | states |
|---|---|---|
| `CommandBuilder.ParseProduct` | bin/modules/UlsInputCli.py:128-180 | only the exact names "EAA", "ETP" and "MFA" select a producer; any other name falls into the fatal branch |
| `CommandBuilder.FeedSelector` | bin/modules/UlsInputCli.py:72-84 | succeeds exactly when the feed is listed or is None/empty. A listed feed is returned unchanged, because membership is tested first. Otherwise the result is the first listed feed. A non-empty unlisted feed is fatal `InvalidFeed`. Every result is a member of the feed list |
| `CommandBuilder.FeedSelectorIdempotent` | bin/modules/UlsInputCli.py:72-84 | selecting again from a selected feed gives the same result |
| `CommandBuilder.FormatSelector` | bin/modules/UlsInputCli.py:86-97 | succeeds exactly when the format is listed or is None/empty. A listed format is kept, because membership is tested first. An empty format becomes "JSON", whether or not "JSON" is listed. Anything else is fatal `InvalidFormat` |
| `CommandBuilder.PrepProxy` | bin/modules/UlsInputCli.py:99-103 | no tokens when the proxy is None or empty, otherwise exactly `--proxy <proxy>` |
| `CommandBuilder.PrepEdgegridAuth` | bin/modules/UlsInputCli.py:105-107 | always the four tokens `--edgerc <file> --section <section>`, with nothing validated |
| `CommandBuilder.UlsUserAgent` | bin/modules/UlsInputCli.py:109-111 | exactly two tokens: `--user-agent-prefix`, then the tag `ULS/<version>_<product>-<feed>` |
| `CommandBuilder.ParseUserAgentTag` | bin/modules/UlsInputCli.py:110 | any version/product/feed it reads from a tag prints back to that same tag |
| `CommandBuilder.UserAgentTagRoundTrip` | bin/modules/UlsInputCli.py:110 | `ULS/<version>_<product>-<feed>` reads back to its version, product and feed whenever the version has no `_` |
| `CommandBuilder.FlagBlockOptions` | bin/modules/UlsInputCli.py:99-111 | a `--name value` option parser reads the proxy, the credentials file and section, and the user-agent tag back from the flag tokens, and nothing else |
| `CommandBuilder.Subcommand` | bin/modules/UlsInputCli.py:133-136 | EAA `CONHEALTH` gives `connector list --perf --tail`. Every other feed gives `<verb> lower(feed) -f`. The verb is `log` for EAA (line 136) and `event` for ETP and MFA (lines 153, 168). The subcommand never ends in `--json` |
| `CommandBuilder.BuildCommand` | bin/modules/UlsInputCli.py:124-180 | the reference definition of the vector in final token order. Its contract says: construction never fails with `RetriesExhausted`; it fails with `UnknownProduct` exactly when the name is not one of the three, and with `UnsplittableRawCommand` exactly when a known product's raw command cannot be split; a built vector starts with python and the product's binary; structured mode yields a listed feed, and raw mode keeps the feed as given. `AssembleCommand`, `StructuredFlagsFollowBinary`, `EaaJsonFlag`, `FormatIgnoredOutsideEaa` and `RawCommandShape` state the rest |
| `CommandBuilder.AssembleCommand` | bin/modules/UlsInputCli.py:124-180 | the in-place construction is equal to `BuildCommand`: the subcommand vector, then the three insertions at index 2 (user agent, then auth, then proxy), then the EAA `--json` append. This gives the order python, binary, proxy, auth, user agent, subcommand. Raw mode and the fatal cases are covered too |
| `CommandBuilder.BuildCommandStable` | bin/modules/UlsInputCli.py:131-132 | rebuilding from the rebound `feed` variable gives the same command and feed on every iteration |
| `CommandBuilder.StructuredFlagsFollowBinary` | bin/modules/UlsInputCli.py:137-139 | in structured mode the vector starts with python and the binary. Next come `--proxy` (present exactly when a proxy is given), `--edgerc`, `--section` and `--user-agent-prefix`, at fixed offsets. The option parser reads that block as proxy, credentials and tag. The product's subcommand follows the block |
| `CommandBuilder.EaaJsonFlag` | bin/modules/UlsInputCli.py:140-141 | a structured EAA command ends in `--json` exactly when the format resolves to "JSON" |
| `CommandBuilder.ConnectorHealthCommand` | bin/modules/UlsInputCli.py:133-141 | when the format resolves to "JSON", the EAA `CONHEALTH` command ends in `connector list --perf --tail --json` |
| `CommandBuilder.FormatIgnoredOutsideEaa` | bin/modules/UlsInputCli.py:147-175 | for ETP and MFA, changing the format never changes the result, so an invalid format is not fatal. A structured command ends in `-f` |
| `CommandBuilder.RawCommandShape` | bin/modules/UlsInputCli.py:142-145 | for a known product, raw mode fails only when `rawcmd` cannot be split, with `UnsplittableRawCommand`. Otherwise it gives `[python, binary, --user-agent-prefix, tag(feed as given)] + tokens(rawcmd)`. The feed is not validated. Proxy, format and credentials have no effect |
| `CommandBuilder.EaaDefaultsScenario` | bin/modules/UlsInputCli.py:127-141 | EAA with no feed and no format, and feeds `[AUDIT, CONHEALTH]`, selects `AUDIT` and ends in `log audit -f --json` |
| `Supervisor.Step` | bin/modules/UlsInputCli.py:181-203 | one attempt leaves the supervisor running exactly when a process spawned and is still alive. Otherwise the counter goes up by one. A spawned process becomes current, and its output becomes the non-blocking stream. A process kept running has its error stream dropped |
| `Supervisor.RunLoop` | bin/modules/UlsInputCli.py:123-208 | the reference definition of the `while` loop. Its contract says: it ends running or with the counter past the budget; the counter never decreases and never passes `retries + 1`; a loop whose guard is false changes nothing; a loop that ends not running keeps the old process or one spawned by one of its own attempts. `RunLoopFirstAlive` states what it computes |
| `Supervisor.Supervise` | bin/modules/UlsInputCli.py:113-208 | the reference definition of all of `proc_create`. Its contract says: a normal return leaves the supervisor running or unchanged; every failure leaves it not running; a construction error leaves the state unchanged; from counter 1, giving up always reports `rerun_retries` retries. `SuperviseStartsFirstAlive`, `SuperviseGivesUp`, `SuperviseRunningIff`, `SuperviseConfigError` and `SuperviseNoAttempt` state the rest |
| `Supervisor.FirstAlive` | bin/modules/UlsInputCli.py:123 | the first attempt number in a range whose process stays alive, with every earlier attempt failed; `None` when none in the range is alive |
| `Supervisor.RunLoopFirstAlive` | bin/modules/UlsInputCli.py:121-208 | the loop stops at the first alive attempt `k`: running, counter `k`, that process current with a non-blocking output. With no alive attempt it stops not running, with counter `retries + 1` |
| `Supervisor.SuperviseStartsFirstAlive` | bin/modules/UlsInputCli.py:121-208 | with a valid command, `proc_create` returns normally, running on the first alive attempt `k`, where `k <= rerun_retries`. There were `k - 1` failures, so at most `rerun_retries` attempts |
| `Supervisor.SuperviseGivesUp` | bin/modules/UlsInputCli.py:205-208 | with no alive attempt and a budget of at least one, the fatal exit comes right after the `rerun_retries`-th failure, with `rerun_counter - 1 == rerun_retries` |
| `Supervisor.SuperviseRunningIff` | bin/modules/UlsInputCli.py:123-208 | with a valid command, the supervisor ends running exactly when some attempt in `1..rerun_retries` is alive. The exit is fatal exactly when the budget is at least one and no attempt in it is alive |
| `Supervisor.SuperviseConfigError` | bin/modules/UlsInputCli.py:177-180 | once the loop is entered, an unknown product, an invalid feed, an invalid format or an unsplittable raw command ends `proc_create` before any spawn, and the state is left unchanged |
| `Supervisor.SuperviseNoAttempt` | bin/modules/UlsInputCli.py:121-123 | with `rerun_retries < 1`, or when already running, nothing is attempted and nothing is fatal, even for an unknown product |
| `Supervisor.UlsInputCli.constructor` | bin/modules/UlsInputCli.py:59-70 | copies run delay, retries, retry delay and python binary from the configuration; not running, no process, no output |
| `Supervisor.UlsInputCli.CheckProc` | bin/modules/UlsInputCli.py:210-222 | alive exactly when there is a process and `poll()` returned None. An exit status, an exception, or no process gives false. The state is unchanged |
| `Supervisor.UlsInputCli.TryStart` | bin/modules/UlsInputCli.py:181-203 | the fields and the counter after one try/except pass are exactly `Step` of the state before it |
| `Supervisor.UlsInputCli.ProcCreate` | bin/modules/UlsInputCli.py:113-208 | the verdict and the new `running`, `proc` and `procOutput` are exactly those of `Supervise` from the old fields with counter 1 |

## Left out

- `uls_version`: it only spawns the three producers with `version`, prints a report and exits 0. It has no logic to prove.
- Process and descriptor plumbing is not modelled: `subprocess.Popen`, `poll()`, `stderr.read()`, `os.set_blocking` and `subprocess.DEVNULL`. A spawn and its health check are one oracle outcome per attempt. Non-blocking output is the flag `nonBlocking`. Dropping the error stream is the flag `stderrPiped`.
- `time.sleep` for the settle delay (a fixed 1 second, line 191) and the retry delay (`rerun_delay`, line 200) is timing only and is not modelled. The class keeps `runDelay` and `rerunDelay` as copied constants. `runDelay` is unused, as `run_delay` is in the source.
- Log messages (`aka_log`) are not modelled, including the diagnostic text read from the error stream and the process ID.
- `str.lower` and `shlex.split` are foreign library behaviour. They are function parameters, so the model says nothing about their results.
- The configuration module's contents are a `Config` parameter. Every feed list is required to be non-empty. With an empty list the source raises `IndexError` on a defaulted feed.
- The keyword defaults of `proc_create` are not modelled. These are `credentials_file="~/.edgerc"` and `credentials_file_section="default"`. Callers pass every argument explicitly.
- A product of `None` is represented by any name other than the three products. It takes the same fatal branch.
- If the very first `Popen` raises, the `except` handler at line 203 refers to the unbound `cli_proc`. That raises `NameError` out of `proc_create`. The model counts that attempt as an ordinary failure, the behaviour the retry loop is written for.
- `Supervisor.UlsInputCli.CheckProc` does not clear `running` for a process that has exited. Line 216 refers to the undefined `cli_proc`, so the bare `except` returns false before line 217 can run. The model follows that: `CheckProc` changes no state.
- The single-live-handle invariant holds by construction. `proc` is an `Option` and is overwritten on each spawn. The model has no notion of terminating or releasing a handle.
