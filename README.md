# toy-debugger process control, in Dafny

This project models the process-control core of `td`, a small ptrace
debugger written in Rust. There are two parts.

- **Controller** (`controller.dfy`, after `src/process.rs`). It decodes a
  wait result into a `StopReason` and renders that as the user-facing text.
  Its `Process` object owns one traced process and has the fields `pid`,
  `terminateOnEnd` and `state`, with the operations launch (parent side),
  attach, resume and wait-on-signal. It also has the teardown that `Drop`
  runs.
- **Dispatcher** (`dispatcher.dfy`, after `src/bin/td/main.rs`). It takes
  the command word of an input line and tests it as a prefix of
  `"continue"`. On a match it resumes the process, waits for it, and prints
  `Process <pid> <description>`.

The operating system is abstract. An `Os` object keeps a log
(`seq<OsAction>`) of every call the controller makes: fork, ptrace
attach/cont/detach, waitpid and kill. The outcome of each call is a
parameter of the method that makes the call: whether it succeeded, the
child pid fork returned, and the `WaitStatus` a wait reported. The
contracts say which calls are made, in which order, and what the process
record holds afterwards.

Supporting modules:
- `wrappers.dfy` holds `Option` and `Result`.
- `format.dfy` holds Rust's `{}` rendering of integers and a parser that
  reads that text back.
- `signals.dfy` holds the Linux signals of the `nix` crate's `Signal` type
  and the names its `Display` writes.

The model follows what the code does, including these behaviours:
- An empty or all-whitespace line has the empty command word. `""` is a
  prefix of `"continue"`, so such a line runs `continue`.
- When the first wait fails in `launch` or `attach`, the new `Process` value
  is dropped. Its teardown therefore runs before the error is returned:
  detach and SIGCONT, plus SIGKILL and a wait for a launched process. The
  model records these calls.
- When exec fails in the child, the child calls `exit(1)`
  (src/process.rs:137). The parent's first wait then reports an exit, and
  `launch` returns `Ok` with the state `Exited` (src/process.rs:124-126). A
  launch of a missing executable is therefore reported as a success.
- Teardown does not look at whether the process has exited. A launched
  process whose state is `Exited` or `Terminated` still gets detach,
  SIGCONT, SIGKILL and a wait (src/process.rs:190-196).

## Model

| member | source | states |
|---|---|---|
| `Controller.Decode` | src/process.rs:48-68 | An exited status gives `Exited` with its code and no signal. A signaled status gives `Terminated`, and a stopped status gives `Stopped`; both carry the signal's name and no exit code. Decoding never yields `Running`, and other wait shapes are excluded by the precondition. |
| `Controller.Describe` | src/process.rs:71-88 | The description is empty exactly for `Running`. It requires the fields that `Display` unwraps. |
| `Controller.DescribeRoundTrip` | src/process.rs:71-88 | Parsing the description of any consistent stop reason gives that reason back. So the three texts and their details never collide. |
| `Controller.DescribeDecoded` | src/process.rs:51-65 | A decoded exit reads `exited with status: <code>`. A decoded signal reads `terminated with signal: <name>` or `stopped with signal: <name>`. The decoded reason can be recovered from its text, and the signal itself from the name it carries. |
| `Controller.TeardownActions` | src/process.rs:182-196 | The teardown call list is empty exactly for pid 0. Otherwise it has two calls (detach, SIGCONT), plus two for a running process (SIGSTOP, wait) and two for a launched one (SIGKILL, wait). |
| `Controller.Process.constructor` | src/process.rs:119-123 | A new record has the given pid and ownership and the provisional state `Stopped`. |
| `Controller.Process.Launch` | src/process.rs:116-127 | A failed fork logs only the fork and returns `Fork`. Otherwise the child is waited on. A failed wait returns `Wait` after the teardown of a launched, stopped process. A successful wait gives a fresh process with the child's pid, `terminateOnEnd` true and the decoded state. |
| `Controller.Process.Attach` | src/process.rs:144-157 | Pid 0 gives `InvalidPid` and logs nothing. Any other pid logs exactly one attach request. A refused attach returns `Attach`. Otherwise the attach is followed by one wait. A failed wait returns `Wait` after the teardown of an attached, stopped process (detach, then SIGCONT, no kill). A successful wait gives a fresh process with that pid, `terminateOnEnd` false and the decoded state. |
| `Controller.Process.Resume` | src/process.rs:159-164 | Logs one continue request. The state becomes `Running` only when the request succeeded. On failure it returns `Resume` and the state is unchanged. `pid` and `terminateOnEnd` are never touched. |
| `Controller.Process.WaitOnSignal` | src/process.rs:166-172 | Logs one wait. On success the state becomes exactly the decoded reason, which is returned and is never `Running`. On failure it returns `Wait` and the state is unchanged. |
| `Controller.Process.Drop` | src/process.rs:179-198 | Appends exactly `TeardownActions(pid, state, terminateOnEnd)` to the log. |
| `Controller.TeardownOfSentinel` | src/process.rs:182-184 | Pid 0 produces an empty teardown. |
| `Controller.TeardownDetachesThenContinues` | src/process.rs:190-191 | A real process is detached exactly once. SIGCONT comes immediately after the detach and never before it. |
| `Controller.TeardownStopsBeforeDetach` | src/process.rs:186-190 | SIGSTOP is sent exactly when the state is `Running`. It is then the first action, followed by a wait, and comes before the detach. |
| `Controller.TeardownKillsOnlyOwned` | src/process.rs:193-196 | SIGKILL is sent exactly when the pid is real and the process was launched (`terminateOnEnd`), so an attached process is never killed. A SIGKILL comes after the detach and the SIGCONT and is followed by a final wait. |
| `Controller.TeardownTargetsOwnProcess` | src/process.rs:182-196 | Every teardown action is addressed to the owned pid. |
| `Dispatcher.CommandWord` | src/bin/td/main.rs:16-17 | The command word contains no whitespace. It is empty exactly when the line is all whitespace. |
| `Dispatcher.CommandWordOf` | src/bin/td/main.rs:16-17 | For a line made of leading whitespace, a word, then either nothing or text that starts with whitespace, the command word is that word. Later tokens are ignored. |
| `Dispatcher.Resolve` | src/bin/td/main.rs:19 | The command resolves to `continue` only when its word is no longer than `"continue"`, and it always does for an all-whitespace line. |
| `Dispatcher.BlankLineContinues` | src/bin/td/main.rs:17-19 | A blank or all-whitespace line resolves to `continue`, because `""` is a prefix of `"continue"`. |
| `Dispatcher.ResolveContinue` | src/bin/td/main.rs:16-19 | A line whose first word is non-empty resolves to `continue` exactly when that word is the first k letters of `"continue"` for some k from 1 to 8. Both directions are proved. |
| `Dispatcher.AbbreviationsContinue` | src/bin/td/main.rs:19-21 | Each of `"c"`, `"co"`, …, `"continue"` runs the command. |
| `Dispatcher.LongerWordsUnknown` | src/bin/td/main.rs:19-24 | A word longer than `"continue"`, such as `"continues"`, is an unknown command. |
| `Dispatcher.StopReport` | src/bin/td/main.rs:30-36 | Nothing is printed exactly when the reason is `Running`. |
| `Dispatcher.StopReportRoundTrip` | src/bin/td/main.rs:30-36 | For any settled, consistent reason, a line is printed. Parsing that line gives back both the pid and the stop reason. |
| `Dispatcher.HandleCommand` | src/bin/td/main.rs:15-28 | An unknown command writes "Unknown command" to stderr and makes no controller call. `continue` makes a continue request. If that fails, it returns `Resume`, makes no wait and leaves the state unchanged. Otherwise exactly one wait follows. If the wait fails, it returns `Wait`, prints nothing and leaves the state `Running`. If the wait succeeds, the state is the decoded, non-`Running` reason and exactly one `Process <pid> <description>` line goes to stdout. |
| `Format.IntToString` | src/process.rs:28-32 | A rendered integer is non-empty, contains no space, and starts with `-` exactly when it is negative. |
| `Format.IntRoundTrip` | src/process.rs:74 | Parsing the rendering of any integer gives the integer back. |
| `Signals.NameRoundTrip` | src/process.rs:59 | `FromName` gives back every signal from the name that `signal.to_string()` writes for it. |
| `Signals.NameInjective` | src/process.rs:59 | No two signals share a name, so a signal name in a stop reason identifies the signal. |

## Left out

- The real system calls (`fork`, `execvp`, `ptrace`, `waitpid`, `kill`): their OS-level effect on the tracee is not modelled. Only the requests made, their order and the outcomes the controller sees are modelled. So the model does not state that a torn-down tracee is never left both stopped and traced.
- The child branch of `launch` (src/process.rs:128-140). It runs in the forked child, which has no channel back to the parent. The model declares the `Traceme` and `Exec` errors but never produces them. The source returns them only in the forked child (src/process.rs:129, 131), where they leave through the child's own `main`.
- The `todo!()` arm of the decoder (src/process.rs:66). It becomes the precondition `Handled(ws)`: only exited, signaled and stopped statuses reach the decoder or a wait. A panic there would unwind and also run teardown; that is not modelled.
- `Controller.Describe`: requires the exit code or signal name that `Display` unwraps, because an absent one panics in the source.
- The `Pid` wrapper and its conversions (src/process.rs:13-26), and the `pid()` accessor (src/process.rs:174-176). A pid is an `int`, read as the field `pid`. The i32 range is not enforced.
- `CString` encoding of the launch path: the path is not part of the model.
- The `nix` crate's source is not part of this project. Two of its Linux definitions are copied here and taken on trust: the `Signal` set with the names `as_str` gives them (`signals.dfy`), and the shapes of `WaitStatus` (`Controller.WaitStatus`).
- `main`'s argument parsing, the line-editor loop, Ctrl-C/Ctrl-D, the history file, and the `Error handling command` diagnostic (src/bin/td/main.rs:38-72). These are I/O and the interactive front end. Printed lines are returned as values without their trailing newline.
- The tracee running concurrently with the debugger: it is seen only through the wait outcomes passed in.
