# Verification of the connection supervisor

A Dafny model of the part of the repository that keeps a VPN client process alive, and of the
small algorithms around it. `dafny verify dfyconfig.toml` checks everything.

## What is modelled

**The supervision protocol** (`src/backend/proxy/manager.rs`). One mutex-protected `State` is
driven by callers of `start`, `stop` and `submit_input`, by each child's supervisor and log
readers, by retry timers, readiness pollers and the delayed EIP opener.

- `Session.dfy`: the value of that state, one function per lock section, and class `State`,
  whose methods update the fields in place and are proved against those functions.
  `StateSteps.dfy`: these methods carry out every step of the protocol.
- `Protocol.dfy`: the shared state, every task that is between two lock sections with the
  token it holds, each child's stdin pipe, and a history that no step reads. This is **level
  L1**: every lock section is a step, and anything may fall between two steps. `TaskFrames.dfy`,
  `Footprints.dfy`, `StepEffects.dfy`, `LockInvariants.dfy`, `HandleInvariants.dfy`,
  `StdinFraming.dfy`, `LockTheorems.dfy` and `PromptLaws.dfy` are about L1.
- `SessionMoves.dfy` and `RestrictedRuns.dfy`: runs under `Restrictions`, which say what is not
  interrupted: `start`, the two sections of a manual start; `exit`, a supervisor's clear and
  decision; `schedule`, the two sections of `schedule_retry`; `eip`, the opener's check, launch
  and mark; `retry`, a retry's second check and the section that stores its options; and
  `captcha`, that a captcha file is noticed only while its child holds the slot. With none of
  them the runs are those of L1; with the first three and `captcha` they are **level L2**. Every
  restricted run is an L1 run, and fewer restrictions allow more runs.
- `Readiness.dfy`, `Children.dfy`, `Pollers.dfy`, `Carriers.dfy`, `Browser.dfy` and
  `LaunchOptions.dfy`: what is kept under the fewest restrictions that each theorem needs. `Scenarios.dfy` and `SplitRuns.dfy`:
  concrete runs that go wrong when one restriction is lifted and all others are kept.
  `SessionTheorems.dfy`: the theorems about sessions, each with its exact restrictions.

Starting a process, dialing, launching a browser and writing to a pipe are steps whose outcome
is free: a process starts with any pid or fails to (binary missing, or any spawn error), a dial
succeeds or fails, a write is complete or cut short anywhere. Aborting a task ends it only where
it can be suspended. A child's log readers may raise any prompt or begin a readiness wait at any
time while the child is supervised; whether the dial address is empty is free.

**Argument quoting and the relaunch handoff** (`ArgvQuoting.dfy`, `Decimal.dfy`,
`Relaunch.dfy`). The tokenizer is the specification in "Parsing C command-line arguments"
(Microsoft Learn), under each of the three rules in use for a doubled quote inside quotes. Only
the part of the command line after the program name is modelled. The backslash counter is the
source's `u32`, wrapping as a release build does.

**The streaming line splitter** (`LineSplitter.dfy`), against a one-shot split into CR/LF-free
runs. **The replay bridge**, sequential (`ReplayBridge.dfy`) and with interleaved two-step calls
(`ReplayRaces.dfy`). **Backoff** (`Backoff.dfy`, `Outage.dfy`) over nanosecond counts, with any
function as jitter. **Bind addresses** (`BindAddress.dfy`): the two parsers and the dial address.

## What turned out false, and when it holds

- **The theorems about sessions** are false at L1, although the comment at
  `src/backend/proxy/manager.rs:388` calls the two sections of `start` atomic. Each holds of all
  runs exactly under the restrictions in this table, whatever the others are:

  | theorem | `start` | `exit` | `captcha` | `schedule` | `eip` | `retry` |
  |---|---|---|---|---|---|---|
  | no session is stranded | needed | needed | needed | needed | | |
  | nothing is awaited without a child | needed | needed | needed | | | |
  | a child belongs to its session | needed | needed | | | | |
  | a generation registers one child | needed | needed | | | | |
  | "connected" has its child | needed | needed | | | | |
  | no exit is ignored as stale | needed | needed | | | | |
  | a wait is never lost | needed | needed | | | | |
  | the child of an ended session is being stopped | | needed | | | | |
  | a generation begins one wait | needed | | | | | |
  | a generation has one poller | needed | | | | | |
  | the browser opens once per manual start | needed | | | | needed | |
  | the flag tells whether the browser opened | | | | | needed | |
  | a cancelled open is tried again | | | | | needed | |
  | a retry carries the options of the start | needed | | | | | |
  | the session keeps the options of the start | needed | | | | | needed |
  | the browser opens as the start asked | needed | | | | needed | needed |

  For each restriction that is needed, `SplitRuns` has a run that keeps all the others and
  breaks the theorem. A session is stranded when the second section of an interrupted `start`
  revives it over a child that a stop has claimed; when a child registers between another's
  clear and decision, which then moves the generation on under it; when the second section of
  `schedule_retry` cancels a newer timer; or when the captcha file of a child that has exited is
  noticed late, since aborting the monitor does not stop a callback that is already running.
  The options go wrong when a retry reads them while an interrupted start has not set its own,
  and when one that was overtaken stores them after its last check.
- **Escape, join and tokenize give the arguments back** iff no argument holds a NUL and no run
  of backslashes overflows the counter: 2^31 of them before a quote or at the end, 2^32 elsewhere
  (`ArgvQuoting.RoundTrip`). The same holds under each rule for doubled quotes.
- **Chunking does not matter** iff no run exceeds 64 KiB (`LineSplitter.ChunkingDoesNotMatter`),
  and some streams have such a run (`LineSplitter.LongRunsExist`).
- **Dialing twice is dialing once** except for a bracketed host that has no colon and begins
  with white space, and for the host `[` before a port `:]:...`
  (`BindAddress.DialIsStable`). The dial address reads back iff the host has a colon, or the
  port has none and the host does not begin with `[` (`BindAddress.DialReadsBack`). Three
  lemmas beside these show the failing families at `[ h]:80`, `[[]::]:80` and `[h]:1:2`.

## Model

| member | source | states |
|---|---|---|
| `LockTheorems.SlotBelongsToOneChild` | src/backend/proxy/manager.rs:490-506 | L1, every reachable state: the slot is taken iff exactly one child is supervised; pid and stdin are that child's, and a missing stop channel was claimed by a stop that reaches it |
| `LockTheorems.OnlyItsOwnExitEmptiesTheSlot` | src/backend/proxy/manager.rs:760-766 | L1: no losing start, cleanup, stop or other child's exit changes the pid or stdin of the child that holds the slot; its own exit clears all three fields |
| `LockTheorems.StopReachesItsChild` | src/backend/proxy/manager.rs:546-579 | L1: once a stop has taken a child's stop channel, along every run it is still on its way or has arrived |
| `LockTheorems.GenerationNeverDecreases` | src/backend/proxy/manager.rs:394 | L1, along every run |
| `LockTheorems.GenerationIsAhead` | src/backend/proxy/manager.rs:394-408 | L1: the generation of an active session is at least 1, so the sentinel 0 never stands for it; every registration and every wait was under a generation up to the current one |
| `LockTheorems.NoTokenIsAhead` | src/backend/proxy/manager.rs:401-414 | L1: a token held by any task is at most the current generation |
| `LockTheorems.TokenIsHeldAlong` | src/backend/proxy/manager.rs:1118-1134 | L1: between two states of a run a task keeps the token it took, or gave it up for good |
| `LockTheorems.StaleTokensStayStale` | src/backend/proxy/manager.rs:929-942 | L1: once the generation is past a token, the guards of registration, cleanup, readiness, EIP and retry reject it in every later state, and its exit changes nothing in an active session |
| `LockTheorems.OldExitsChangeNothing` | src/backend/proxy/manager.rs:1089-1092 | L1: when a start takes over, a child of before is at most about to decide, and its decision only removes its own task while a session is active |
| `LockTheorems.StopIsFinal` | src/backend/proxy/manager.rs:527-556 | L1: after a stop, until some start sets up, the session stays inactive and not ready, nothing is registered, and no guard accepts any token |
| `LockTheorems.StopOutdatesEverything` | src/backend/proxy/manager.rs:539 | L1: every token in flight at a stop is rejected by every guard for ever after, whatever is started later |
| `LockTheorems.OneAnswerPerPrompt` | src/backend/proxy/manager.rs:604-628 | L1: the accepted answers of a kind, plus one while it is awaited, never exceed the times it was raised |
| `LockTheorems.StdinCarriesTheAnswers` | src/backend/proxy/manager.rs:713-721 | L1: what a child reads, split on newlines, is exactly the accepted values in order up to the queued ones, and a broken write leaves a prefix of the next |
| `LockTheorems.AttemptsCountUp` | src/backend/proxy/manager.rs:1117-1121 | L1: between resets the attempts used are 1, 2, 3, ... up to 4294967295, and the counter is how many there were |
| `LockTheorems.LastOptionsAreTheStarts` | src/backend/proxy/manager.rs:404-406 | L1: what a retry would use are the options of the last start that set a session up |
| `PromptLaws.SubmitTakes` | src/backend/proxy/manager.rs:588-628 | L1: an answer is taken iff a prompt is awaited, the kind is its name ("sms", "callback", "captcha"), the child in the slot listens, and the trimmed input is one line of 1 to 4096 bytes; then exactly that is queued and counted, otherwise nothing changes |
| `PromptLaws.StopTakesNoAnswers` | src/backend/proxy/manager.rs:544 | L1: after a stop nothing is awaited, and in every continuation until a prompt is raised no submission changes anything |
| `PromptLaws.StartTakesNoAnswers` | src/backend/proxy/manager.rs:411 | L1: the same after a start has set its session up |
| `PromptLaws.ExitEndsThePrompt` | src/backend/proxy/manager.rs:1101-1107 | L1: an exit while a prompt is awaited ends the session and the prompt, and no answer is taken until one is raised again |
| `PromptLaws.ExitJoinsReaders` | src/backend/proxy/manager.rs:755-757 | L1: a supervisor exits only when no reader of its child is in the middle of a line |
| `PromptLaws.ForwardWrites` | src/backend/proxy/manager.rs:713-720 | L1: the oldest queued value is written in UTF-8 with one newline; nothing else changes |
| `PromptLaws.BreakEndsPipe` | src/backend/proxy/manager.rs:716-718 | L1: a failed write leaves part of one value and ends the forwarding |
| `PromptLaws.NewPipeIsEmpty` | src/backend/proxy/manager.rs:487-505 | L1: the pipe of a registered child is empty and open |
| `PromptLaws.AbortEndsSleepers` | src/backend/proxy/manager.rs:562-570 | L1: an abort ends a task iff it is a sleeping timer, a sleeping opener or a poller |
| `LockInvariants.SlottedKept` | src/backend/proxy/manager.rs:974-976 | every lock step keeps slot ownership |
| `LockInvariants.StopGetsThere` | src/backend/proxy/manager.rs:576-578 | no lock step loses a stop that is on its way |
| `LockInvariants.TokensKept` | src/backend/proxy/manager.rs:1112 | every lock step keeps all tokens at or below the generation |
| `LockInvariants.AnsweredOnceKept` | src/backend/proxy/manager.rs:820-829 | every lock step keeps the balance of raised, answered and awaited prompts, for each kind |
| `StdinFraming.SplitUndoesLines` | src/backend/proxy/manager.rs:714-716 | splitting on newline recovers every list of newline-free values from its framing |
| `StdinFraming.FramedReadsBack` | src/backend/proxy/manager.rs:713-721 | a pipe in the kept state reads back as the delivered values and a prefix of the next |
| `StdinFraming.PipesFramedKept` | src/backend/proxy/manager.rs:622-624 | every lock step keeps every pipe's framing |
| `HandleInvariants.AimedKept` | src/backend/proxy/manager.rs:562-570 | every lock step keeps each handle aimed at its own kind of task, and those a stop has taken at outdated ones |
| `HandleInvariants.AbortedPoller` | src/backend/proxy/manager.rs:924-926 | L1: a poller is aborted only by the registration that replaces it, or when it is outdated |
| `HandleInvariants.AbortedTimer` | src/backend/proxy/manager.rs:1135-1137 | L1: a timer is aborted only by the registration that replaces it, by a start, or when it is outdated |
| `SessionMoves.MoveAchieves` | src/backend/proxy/manager.rs:1021-1031 | what each group of lock steps comes to for the shared state, the tasks and the history |
| `SessionMoves.ReachableUnderLess` | src/backend/proxy/manager.rs:388-424 | what is reachable under some restrictions is reachable under fewer |
| `RestrictedRuns.ReachableUnderIsReachable` | src/backend/proxy/manager.rs:388-424 | every restricted run is an L1 run, so every L1 theorem holds of it |
| `RestrictedRuns.UnrestrictedIsReachable` | src/backend/proxy/manager.rs:389-414 | without restrictions exactly the L1 states are reachable |
| `SessionTheorems.NoSessionIsStranded` | src/backend/proxy/manager.rs:1089-1139 | L2: an active session has a supervised child of its generation, or a start or retry in flight with its generation, or an exit whose retry is about to be scheduled |
| `SessionTheorems.NoSessionIsStrandedExactly` | src/backend/proxy/manager.rs:1117-1139 | that holds of all runs iff start, exit, schedule_retry and captcha are restricted |
| `SessionTheorems.ChildBelongsToItsSession` | src/backend/proxy/manager.rs:539-554 | with start and exit uninterrupted: a child of an active session has the current generation; one of an inactive session has had its stop channel claimed |
| `SessionTheorems.ChildBelongsExactly` | src/backend/proxy/manager.rs:1028-1031 | that holds of all runs iff start and exit are uninterrupted |
| `SessionTheorems.OneChildPerGeneration` | src/backend/proxy/manager.rs:499-505 | with start and exit uninterrupted: the generations of registered children strictly increase |
| `SessionTheorems.OneChildExactly` | src/backend/proxy/manager.rs:490-506 | that holds of all runs iff start and exit are uninterrupted |
| `SessionTheorems.ReadyHasItsChild` | src/backend/proxy/manager.rs:937-951 | with start and exit uninterrupted: "connected" implies an active session whose current-generation child holds the slot |
| `SessionTheorems.ReadyExactly` | src/backend/proxy/manager.rs:760-767 | that holds of all runs iff start and exit are uninterrupted |
| `SessionTheorems.NoExitIsIgnored` | src/backend/proxy/manager.rs:1074-1092 | with start and exit uninterrupted: no child that can exit belongs to a past generation of an active session, so the stale-exit branch is never taken |
| `SessionTheorems.NoExitIsIgnoredExactly` | src/backend/proxy/manager.rs:1090-1092 | that holds of all runs iff start and exit are uninterrupted |
| `SessionTheorems.EndedChildIsStopped` | src/backend/proxy/manager.rs:539-547 | with exit uninterrupted: the stop channel of a supervised child of an inactive session was claimed by a stop that reaches it |
| `SessionTheorems.EndedChildExactly` | src/backend/proxy/manager.rs:1101-1107 | that holds of all runs iff exit is uninterrupted: otherwise one child's late decision ends the session over another |
| `SessionTheorems.NothingAwaitedWithoutChild` | src/backend/proxy/manager.rs:1101-1108 | with start and exit uninterrupted and captchas noticed in time: an active session without a child awaits no input |
| `SessionTheorems.NothingAwaitedExactly` | src/backend/proxy/manager.rs:841-847 | that holds of all runs iff these three are restricted |
| `SessionTheorems.OneWaitPerGeneration` | src/backend/proxy/manager.rs:897-905 | with start uninterrupted: the generations of readiness waits strictly increase |
| `SessionTheorems.OneWaitExactly` | src/backend/proxy/manager.rs:407-408 | that holds of all runs iff start is uninterrupted |
| `SessionTheorems.OnePollerPerGeneration` | src/backend/proxy/manager.rs:911-927 | with start uninterrupted: two live pollers of one generation are the same |
| `SessionTheorems.OnePollerExactly` | src/backend/proxy/manager.rs:911-927 | that holds of all runs iff start is uninterrupted |
| `SessionTheorems.WaitIsNeverLost` | src/backend/proxy/manager.rs:929-935 | with start and exit uninterrupted: a wait begun for the current generation is being created, polled or completed until the session is ready |
| `SessionTheorems.WaitIsNeverLostExactly` | src/backend/proxy/manager.rs:924-926 | that holds of all runs iff start and exit are uninterrupted: otherwise a late registration of an old poller aborts the current one |
| `SessionTheorems.BrowserOpensOnce` | src/backend/proxy/manager.rs:978-1009 | with start and the opener uninterrupted: at most one successful open per manual start across all reconnects, and the flag tells whether it happened |
| `SessionTheorems.BrowserExactly` | src/backend/proxy/manager.rs:998-1004 | at most one open on all runs iff start and the opener are uninterrupted |
| `SessionTheorems.FlagTellsOpens` | src/backend/proxy/manager.rs:1001-1004 | with the opener uninterrupted: in an active session the flag is set iff the browser was opened since the manual start |
| `SessionTheorems.FlagExactly` | src/backend/proxy/manager.rs:1001-1004 | that holds of all runs iff the opener is uninterrupted |
| `SessionTheorems.CancelledOpenIsRetried` | src/backend/proxy/manager.rs:946-955 | with the opener uninterrupted: becoming ready schedules an opener iff the session wants one and none has opened since the manual start |
| `SessionTheorems.CancelledOpenExactly` | src/backend/proxy/manager.rs:998-1004 | that holds of all runs iff the opener is uninterrupted |
| `SessionTheorems.RetryCarriesTheOptions` | src/backend/proxy/manager.rs:1142-1152 | with start uninterrupted: a retry with a current token carries the options of the start that set the session up |
| `SessionTheorems.RetryCarriesExactly` | src/backend/proxy/manager.rs:1151 | that holds of all runs iff start is uninterrupted |
| `SessionTheorems.SessionKeepsTheOptions` | src/backend/proxy/manager.rs:1177-1184 | with start and retry uninterrupted: the options that decide about the mode and the browser are the start's |
| `SessionTheorems.SessionKeepsExactly` | src/backend/proxy/manager.rs:1177-1184 | that holds of all runs iff start and retry are uninterrupted |
| `SessionTheorems.BrowserOpensAsStarted` | src/backend/proxy/manager.rs:946-955 | with start, the opener and retry uninterrupted: becoming ready schedules an opener iff the start asked for one and none has opened since |
| `SessionTheorems.BrowserOpensAsStartedExactly` | src/backend/proxy/manager.rs:946-955 | that holds of all runs iff these three are uninterrupted |
| `SplitRuns.LateSetUpStrands` | src/backend/proxy/manager.rs:389-414 | a run that interrupts only a start and strands a session |
| `SplitRuns.LateDecisionStrands` | src/backend/proxy/manager.rs:1028-1031 | a run that interrupts only an exit and strands a session |
| `SplitRuns.LateTimerStrands` | src/backend/proxy/manager.rs:1130-1137 | a run that interrupts only schedule_retry, whose late second section cancels the newer timer, and strands a session |
| `SplitRuns.LateCaptchaStrands` | src/backend/proxy/manager.rs:755-757 | a run in which only a captcha is noticed late, and a session is stranded |
| `SplitRuns.LateMarkOpensTwice` | src/backend/proxy/manager.rs:987-1004 | a run that interrupts only the opener: the child drops during the launch, the mark is rejected, and the next ready opens the browser again |
| `SplitRuns.LateDecisionEndsSession` | src/backend/proxy/manager.rs:1101-1107 | a run that interrupts only an exit and leaves an inactive session with a child that nothing stops |
| `SplitRuns.LateSetUpOpensTwice` | src/backend/proxy/manager.rs:404-408 | a run that interrupts only a start, whose late second section makes a generation ready twice and opens the browser twice |
| `SplitRuns.LateRetryStores` | src/backend/proxy/manager.rs:1177-1184 | a run that interrupts only a retry, which stores the options of the session before over those of the new start |
| `SplitRuns.RetryCarriesOldOptions` | src/backend/proxy/manager.rs:389-414 | a run that interrupts only a start, whose generation gets a retry with the options of the session before |
| `Sessions.CheckedValue` | src/backend/proxy/manager.rs:589-602 | a success is what is left of the input between white space, non-empty, at most 4096 bytes of UTF-8, without control characters or line separators; each error exactly when its check fails first |
| `Text.TrimIsCore` | src/backend/proxy/manager.rs:589 | trimming takes away white space at both ends and nothing else |
| `Text.WhiteSpaceTable` | src/backend/proxy/manager.rs:589 | the 25 characters that trimming takes for white space |
| `Text.Utf8ReadsBack` | src/backend/proxy/manager.rs:716 | reading the written bytes by section 3 of RFC 3629 gives the characters back |
| `StateSteps.Perform` | src/backend/proxy/manager.rs:182-204 | on an object whose value is the protocol's session, each step of the protocol is one method call with exactly the next session and the aborts of that step |
| `Sessions.State.AcquireStart` | src/backend/proxy/manager.rs:389-397 | refused iff a child holds the slot; otherwise a new generation, both timers aborted |
| `Sessions.State.SetUpSession` | src/backend/proxy/manager.rs:401-414 | every field of a fresh session, both copies of the options being the start's, and its token |
| `Sessions.State.CleanUpFailedStart` | src/backend/proxy/manager.rs:427-447 | tears down iff the generation has not moved on and no child is registered |
| `Sessions.State.RegisterChild` | src/backend/proxy/manager.rs:490-506 | registers iff the guard of `spawn_guard_violated` passes |
| `Sessions.State.Stop` | src/backend/proxy/manager.rs:537-556 | the new generation, every field that is reset, the prompt included, and each handle it took for aborting later |
| `Sessions.State.SubmitInput` | src/backend/proxy/manager.rs:588-631 | each error exactly when it is given, in the order of the checks, with the kinds spelled out; a success is the trimmed input and clears the prompt |
| `Sessions.State.RequestInput` | src/backend/proxy/manager.rs:820-829 | the prompt is awaited; reports whether that is new |
| `Sessions.State.RequestCaptcha` | src/backend/proxy/manager.rs:841-854 | the captcha is awaited; a poll starts iff none is under way, under the current generation |
| `Sessions.State.BeginReadyWait` | src/backend/proxy/manager.rs:897-905 | a token iff the session is active, not ready and has no wait of this generation |
| `Sessions.State.ContinuesReadyWait` | src/backend/proxy/manager.rs:929-935 | a poller goes on iff the session is active, not ready, and of its generation and wait |
| `Sessions.State.MarkReady` | src/backend/proxy/manager.rs:937-951 | ready iff token current, active and not yet ready; resets the attempts; opener iff wanted and not opened |
| `Sessions.State.MayOpenEip` | src/backend/proxy/manager.rs:987-990 | the opener goes on iff its generation is current, the session active and ready |
| `Sessions.State.MarkEipOpened` | src/backend/proxy/manager.rs:1001-1004 | marked iff the token is current and the session active and ready |
| `Sessions.State.DecideExit` | src/backend/proxy/manager.rs:1089-1115 | the four outcomes of an exit with the whole state after each, and what is aborted |
| `Sessions.DecisionLaw` | src/backend/proxy/manager.rs:1089-1115 | what each outcome of an exit leaves in every field: an ignored exit nothing, an ended session no prompt, a retried one what the session knows |
| `Sessions.State.BumpAttempt` | src/backend/proxy/manager.rs:1118-1129 | the attempt goes up by one until it is 4294967295; the timer gets the current generation |
| `Sessions.State.CheckRetry` | src/backend/proxy/manager.rs:1142-1152 | the last options iff the token is current, the session active, nothing awaited and no child there |
| `ArgvQuoting.EscapeArg` | src/backend/platform/windows_impl.rs:143-180 | the character loop prints the quoted form that the tokenizer theorems are about |
| `ArgvQuoting.ScanQuoted` | src/backend/platform/windows_impl.rs:151-179 | tokenizing a quoted form from inside quotes, with any backslashes held back, gives the argument back, each run of backslashes modulo its counter |
| `ArgvQuoting.ScanEscaped` | src/backend/platform/windows_impl.rs:139-150 | tokenizing any escaped argument, empty, plain or quoted, yields that one argument and leaves the rest of the line |
| `ArgvQuoting.TokensOfJoined` | src/backend/platform/windows_impl.rs:75-79 | the joined line has exactly one token per argument, in order |
| `ArgvQuoting.RoundTrip` | src/backend/platform/windows_impl.rs:75-79 | escape, join, tokenize is the identity on a list iff no argument holds a NUL or overflows the counter, under every rule for doubled quotes |
| `ArgvQuoting.RoundTripExactly` | src/backend/platform/windows_impl.rs:143-180 | the same in terms of the arguments alone: no NUL, and if quoted no run of 2^32 backslashes, nor one of 2^31 before a quote or at the end |
| `ArgvQuoting.FitsExactly` | src/backend/platform/windows_impl.rs:153-177 | an argument fits the counter iff it has no such run |
| `ArgvQuoting.EscapedShape` | src/backend/platform/windows_impl.rs:143-150 | quotes go around exactly what holds a space, tab, quote or backslash, and the empty argument |
| `ArgvQuoting.JoinedOverSpace` | src/backend/platform/windows_impl.rs:75-79 | two lists of parameters join with one space |
| `ArgvQuoting.QuotedBlanksExample` | src/backend/platform/windows_impl.rs:139-142 | the published example of blanks within quotes |
| `ArgvQuoting.OddBackslashesExample` | src/backend/platform/windows_impl.rs:139-142 | the published example of backslashes before a quote |
| `ArgvQuoting.DoubledQuoteExample` | src/backend/platform/windows_impl.rs:139-142 | what each of the three rules makes of a doubled quote within quotes |
| `ArgvQuoting.OrdinaryArgumentsSurvive` | src/backend/platform/windows_impl.rs:143-180 | NUL-free arguments shorter than 2^31 characters all come back |
| `ArgvQuoting.OverflowLosesBackslashes` | src/backend/platform/windows_impl.rs:153-158 | 2^31 backslashes at the end of an argument do not come back |
| `Relaunch.BuildElevatedRelaunchArgs` | src/backend/relaunch_args.rs:18-24 | the marker, and the pid in decimal unless it is 0 |
| `Relaunch.ParseElevatedRelaunchArgs` | src/backend/relaunch_args.rs:26-45 | succeeds iff every pid argument is a positive u32; the last pid wins; resume iff a marker or pid was there; otherwise the first bad pid is reported |
| `Relaunch.PidArguments` | src/backend/relaunch_args.rs:3-4 | the two markers as they are spelled, and that a pid argument is good iff its text parses to 1 to 4294967295 |
| `Relaunch.LastPidWins` | src/backend/relaunch_args.rs:30-42 | the pid of a successful parse is that of the last pid argument |
| `Relaunch.BuiltParses` | src/backend/relaunch_args.rs:18-45 | the built arguments are all good and give the same pid |
| `Relaunch.Handoff` | src/main.rs:35-36 | for every u32 pid, build, escape, join, tokenize and parse yields resume and that pid |
| `Decimal.ParsesPrinted` | src/backend/relaunch_args.rs:34-36 | parsing undoes decimal printing for every value in range |
| `Decimal.ParsedExactly` | src/backend/relaunch_args.rs:34-36 | a number is parsed from exactly an optional plus sign, zeros and its decimal form, up to the maximum |
| `LineSplitter.DrainLines` | src/backend/proxy/logs.rs:75-88 | the inner loop ends, the buffer shrinking each round, with the buffer's lines and its rest |
| `LineSplitter.TakeChunk` | src/backend/proxy/logs.rs:73-97 | one read: lines out, then the rest capped to its last 64 KiB, then the partial unless blank |
| `LineSplitter.ConsumeStream` | src/backend/proxy/logs.rs:52-101 | the outer loop and the flush at end of file, but not on a read error |
| `LineSplitter.DrainRenders` | src/backend/proxy/logs.rs:74-92 | one read, seen against the one-shot split of the whole stream: lines stand one to one for the runs it finishes, and the rest is the last 64 KiB of the open run |
| `LineSplitter.SeparatorsAndSizes` | src/backend/proxy/logs.rs:62-76 | the separators are CR and LF, a read is 32 KiB and the cap 64 KiB |
| `LineSplitter.RunsJoin` | src/backend/proxy/logs.rs:75-88 | separators part the runs before them from those after; with `NoRuns` and `OneRun` this determines the runs of every stream |
| `LineSplitter.PendingIsBounded` | src/backend/proxy/logs.rs:89-92 | at most 65536 bytes are kept between reads |
| `LineSplitter.HandedRendersRuns` | src/backend/proxy/logs.rs:62-92 | the non-empty lines are, one to one and in order, suffixes of the runs, whole up to 64 KiB, at least 64 KiB when cut, at most 98303 bytes with 32 KiB reads |
| `LineSplitter.ChunkingDoesNotMatter` | src/backend/proxy/logs.rs:62-100 | every way of cutting a stream into reads hands on exactly the runs of the one-shot split, iff no run exceeds 64 KiB |
| `LineSplitter.LongRunIsCut` | src/backend/proxy/logs.rs:89-92 | for every stream with a longer run there is a cutting that loses some of it |
| `LineSplitter.LongRunsExist` | src/backend/proxy/logs.rs:89-92 | a stream of 65537 equal bytes that are no separators has a run that is too long |
| `LineSplitter.HandlerSeesTheRuns` | src/backend/proxy/manager.rs:772-776 | the non-blank lines reaching the handler are the non-blank runs, also when a read cuts a CR LF pair |
| `LineSplitter.HandlerSeesTheTails` | src/backend/proxy/logs.rs:93-96 | the partials are exactly the non-blank open runs after each read, up to their last 64 KiB |
| `LineSplitter.ErrorFlushesNothing` | src/backend/proxy/logs.rs:66-98 | the pending tail is handed on as a line at the end of the file, and never after a read error |
| `ReplayBridge.WebUiBridge.EmitEvent` | src/web/bridge.rs:121-135 | buffered while there was no subscriber, the oldest dropped at 256, and always sent |
| `ReplayBridge.WebUiBridge.Subscribe` | src/web/bridge.rs:107-117 | the first subscriber's buffer is drained into the channel in order; the receiver starts before the replay |
| `ReplayBridge.BuffersTheNewest` | src/web/bridge.rs:124-130 | before any subscriber the buffer is the newest 256 events |
| `ReplayBridge.FirstSubscriberGetsAll` | src/web/bridge.rs:107-117 | without overlap the first subscriber receives the newest 256 earlier events once, in order, then all later ones |
| `ReplayBridge.LaterSubscriberGetsTheRest` | src/web/bridge.rs:107-117 | a later subscriber receives exactly what is emitted after it |
| `ReplayRaces.ReplayLosesNothing` | src/web/bridge.rs:107-135 | under every interleaving no receiver gets an event more than twice, and the one that drained the buffer gets each completed event that was not evicted |
| `ReplayRaces.NewestAreDue` | src/web/bridge.rs:126-129 | the 256 newest events are never among the evicted |
| `ReplayRaces.KeptAlong` | src/web/bridge.rs:121-135 | the invariants behind this along every interleaving |
| `ReplayRaces.EmitAlone` | src/web/bridge.rs:121-135 | an emit that nothing interrupts is one emit of the sequential bridge |
| `ReplayRaces.SubscribeAlone` | src/web/bridge.rs:107-117 | a subscribe that nothing interrupts is one of the sequential bridge, its receiver starting behind what was sent before |
| `Backoff.NextRetryDelay` | src/backend/proxy/retry.rs:12-38 | the base times 2^(attempt - 1), at most the cap, after jitter clamped to at least 1 s and at most the cap; the loop runs min(attempt - 1, doublings from base to cap) rounds |
| `Backoff.DoublingsReach` | src/backend/proxy/retry.rs:19-29 | the number of doublings is the least that reaches the cap |
| `Backoff.ClosedForm` | src/backend/proxy/retry.rs:12-38 | without jitter min(cap, max(1 s, base * 2^(max(attempt, 1) - 1))) |
| `Backoff.JitterIsContained` | src/backend/proxy/retry.rs:30-36 | with any jitter the delay lies in [min(1 s, cap), cap] |
| `Backoff.WaitsNeverShrink` | src/backend/proxy/retry.rs:12-38 | the unjittered wait is monotone in the attempt |
| `Backoff.DefaultOutage` | src/backend/proxy/retry.rs:4-8 | with the defaults n waits sum to 2^n - 1 seconds up to six, then a minute more each |
| `Outage.OutageWaits` | src/backend/proxy/manager.rs:1117-1129 | along every run, for every base and maximum, the j-th retry since the last reset waits min(max, max(1 s, base * 2^(j - 1))), so the waits never shrink |
| `Outage.OutageTotal` | src/backend/proxy/manager.rs:1117-1129 | along every run the default waits sum to 2^n - 1 seconds up to six, then a minute more each |
| `BindAddress.SplitsExactly` | src/backend/proxy/readiness.rs:22-39 | the parser accepts exactly `host:port` with one colon and no leading bracket, and `[host]:port`, with these parts |
| `BindAddress.ParsersAgree` | src/backend/proxy/proxybridge.rs:481-493 | on what the readiness parser accepts with a u16 port the interception parser gives the same host and that port |
| `BindAddress.ExtractsExactly` | src/backend/proxy/proxybridge.rs:481-493 | what the interception parser makes of every bind: with no colon or no u16 after the last one the bind itself and 1080, else the host without enclosing brackets and the port |
| `BindAddress.DialsExactly` | src/backend/proxy/readiness.rs:3-20 | what is dialed for every bind: 127.0.0.1 for an empty host or 0.0.0.0, [::1] for ::, else the host as it is, in brackets iff it holds a colon; what does not split is dialed trimmed |
| `BindAddress.DialReadsBack` | src/backend/proxy/readiness.rs:3-20 | the dialed host is no wildcard, and the dial address splits into it and the same port iff the host has a colon or neither part upsets the plain form |
| `BindAddress.DialIsStable` | src/backend/proxy/readiness.rs:3-20 | dialing twice is dialing once, except for exactly two families of input |
| `BindAddress.FormattedDial` | src/backend/proxy/readiness.rs:14-17 | when an address formatted for a host that is no wildcard is dialed as it stands |
| `BindAddress.BracketedSpaceIsLost` | src/backend/proxy/readiness.rs:14-17 | `[ h]:80` dials ` h:80`, which dials `h:80` |
| `BindAddress.LoneBracketIsReread` | src/backend/proxy/readiness.rs:23-29 | `[[]::]:80` dials `[::]:80`, which dials `[::1]:80` |
| `BindAddress.ColonInPortIsUnread` | src/backend/proxy/readiness.rs:30-37 | `[h]:1:2` dials `h:1:2`, which the parser refuses |

## Left out

- ProxyBridge start and stop inside the manager: its check and its store are separated by slow unlocked work, so "at most one bridge" is not an invariant.
- The order of UI events: they are emitted after the lock is released and need not follow the order of the states.
- Ownership of captcha polls: a poll compares two shared fields and no token of its own; the model lets a poll give up or end whenever that comparison passes.
- What a child is launched with: the command line built from the options is not modelled.
- Which log lines raise which prompt or begin a wait, and the mode and bind address they look at: any line may, at any time.
- Real processes, pipes, signals and sockets: outcomes of steps. A child that has just been spawned is taken to have a pid.
- Durations of timers: a sleeping task may wake at any time.
- The wrap of the u64 generation: it is an unbounded natural number.
- The rest of the `start` section before the first lock (the elevation check), and the removal of the old captcha file.
- That a start, stop or retry eventually completes: the theorems are about safety.
- Lagging receivers of the broadcast channel, and the loss of events they suffer.
- Lossy UTF-8 decoding and trimming of log lines: lines are bytes, and an arbitrary predicate that accepts the empty line says which are blank.
- The default jitter, which rounds in floating point: jitter is any function.
- UTF-16 encoding of the command line, and the program name before the arguments: the tokenizer works on characters.
- The overflow panic of a debug build in `escape_arg`: the counter wraps as in a release build.
- The HTTP server and its authentication, the web page, file persistence, option normalization, the tray and the platform services: plumbing.
