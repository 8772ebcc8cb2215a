# A verified model of cyberdaemon

cyberdaemon turns a Go program into a daemon and controls it. This project models the parts
of it that decide something, against a small abstract operating system, and proves what they
promise:

- **The System V subsystem** (`Proc`, `PidFile`, `Reexec`, `ReexecRuns`, `InitdProtocol`,
  `InitdHistory`). A program
  started by an init.d script looks for the script among its first five ancestors,
  re-executes itself, writes the child's pid to the pid file it handed to the child, and
  exits. The child runs the application and empties the file when it is done. `Proc` holds
  the `/proc` parsers and the ancestor loop, `PidFile` the file with its shared offset.
  `Reexec` is the chain of processes of one `start`, in which every read of `/proc` is a
  step of its own and any process may exit, be reaped or appear between two reads.
  `InitdProtocol` is the whole life of the script: any sequence of `start` and `stop`, any
  interleaving, any number of generations. `ReexecRuns` and `InitdHistory` say what the runs of
  the two come to: what may happen after which history, and that starts and stops succeed.
- **The script generator and its reader** (`Replacer`, `SystemvScript`, `LogPath`,
  `PidPath`). The
  controller fills in a template with a single-pass replacer and checks for leftovers; the
  daemon scans the result, through a read limit and a line limit, for its pid file path.
- **The stop handshake of the example** (`Filewriter`). Two rendezvous, two timers, one
  ticking writer, any number of callers.
- **The Windows side** (`ServiceStop`, `WindowsService`). The polling loop with its 64-bit
  durations, and the request loop with its error composition.

`Text` holds the string operations and `Wrappers` two failure datatypes. A `char` stands for
one byte.

Some promises hold only under a condition, and each condition is proved to be exact, for all
inputs and all runs:

- At most one application runs, on every interleaving, as long as no pid file write fails
  while its child may yet run and no child finds the script again; each such event lets a
  second application in, and no other event does (`AtMostOneApplication`,
  `SecondIsLetInExactly`, `HarmlessRunsExactly`, `BothExceptionsCanHappen`).
- The first child's parent has left before the child is a daemon, on every schedule, unless
  the script is exactly the fifth ancestor of the program (`ParentLeavesFirstExactly`); more
  generally a process can become a daemon with nobody before it having left just when its
  walk is the one that falls short of the script (`ReachIsExact`).
- When the program forks more than once, the file names the right process exactly when its
  pid was written last and no line written since the last open is longer
  (`PidFileNamesExactly`). Two runs in which both parents return nil and this fails are an
  overtaken write and, in the order of the chain, a shorter pid over a longer one
  (`OvertakenWriteSpoilsTheFile`, `WritesInOrderCanSpoilTheFile`).
- The two sides agree on the pid path unless the 100000-byte read limit falls inside that
  path, which the template as it stands can run into (`PidPathsAgree`,
  `SystemvPidPathsCanDisagree`).
- The stat parser copes with command names without blanks, and with few others
  (`StatParseIsExact`).
- The Windows controller gives up at the configured time plus 100 ms exactly when that sum
  fits 64 bits and the value is no multiple of 2^58 (`TimeoutIsHonouredExactly`); beyond, it
  can give up without waiting (`OverflowGivesUpAtOnce`).

The documentation says that the daemonizer checks whether init.d "is the parent process"
(common.go:49-52). The code looks at five ancestors; the model follows the code.

## Model

| member | source | states |
|---|---|---|
| Proc.IsInitdOurParent | daemon_systemv_linux.go:130-154 | On any fixed process table the walk ends as `StopsAt` says: the script of the nearest matching ancestor among five, reached through non-zero parents and readable entries; the error of the first unreadable entry before it; or a clean negative at parent 0 or after five |
| Proc.WalkResultIsUnique | daemon_systemv_linux.go:130-154 | Those outcomes exclude each other, so each holds exactly when its condition does |
| Proc.StatRoundTrip | daemon_systemv_linux.go:156-173 | Reading a printed stat line gives the printed parent pid below 2^63, its wrap-around below 2^64, and an error from there on |
| Proc.StatParseIsExact | daemon_systemv_linux.go:162-172 | For any command name: the parent pid is read correctly if and only if the name has no blank, or has at least three and its third word happens to print that pid |
| Proc.CmdlineRoundTrip | daemon_systemv_linux.go:175-196 | Any NUL-free argument list is recognised by the first of its first four arguments under `/etc/init.d/`; only these four have to fit the read limit, and the piece behind the last NUL does not matter |
| Proc.FirstScriptIsFirst | daemon_systemv_linux.go:185-195 | The search returns the first match among the first four pieces, and nothing exactly when there is none |
| Text.ParseUintOfDec | daemon_systemv_linux.go:167-170 | Parsing a printed decimal gives the number back exactly when it fits 64 bits |
| Text.DecOfDecimalValue | daemon_systemv_linux.go:167-170 | Printing the value of a numeral without leading zeros gives the numeral back |
| PidFile.PidFileShape | daemon_systemv_linux.go:72-114 | In every interleaving of open, write, seek, truncate and close, at every moment, the file is empty or exactly the pid line, and holds the pid just when the write came after any truncation |
| PidFile.FinalPidFile | daemon_systemv_linux.go:87-114 | At the end the file is empty if and only if the write preceded the truncation |
| PidFile.OverwriteAt | daemon_systemv_linux.go:87-114 | A write at an offset, byte by byte, with zeros in a gap |
| PidFile.SeekPreventsAGap | daemon_systemv_linux.go:106-114 | After the deferred seek and truncation a late write of the parent is the whole file; without the seek it would lie behind as many zero bytes as were written before |
| PidFile.LayeredNames | daemon_systemv_linux.go:72-90 | After any number of writes over one another, each from the start of the file, it is the pid line of `p` if and only if `p` was written last and no earlier line is longer; otherwise it is no pid line at all |
| Reexec.StepKeepsInv | daemon_systemv_linux.go:50-98 | Every step of any process, in the chain or not, keeps the invariant that ties each walk to the chain |
| Reexec.ChainIsBounded | daemon_systemv_linux.go:50-98 | For every schedule of exits, reaps and re-parentings one `start` re-executes at most five times, and no process but the last of the chain calls `application.Start` |
| ReexecRuns.NilMeansWritten | daemon_systemv_linux.go:79-94 | In every run a process has returned nil exactly when it spawned a child and wrote that child's pid; a daemon never returns from the forking branch |
| ReexecRuns.OrdinaryStart | daemon_systemv_linux.go:50-117 | Under a script up to five levels up there is the ordinary run: the program forks, writes, returns nil and exits, its child finds nobody but init and calls `application.Start`, and the file names it |
| ReexecRuns.LongestChainStarts | daemon_systemv_linux.go:50-117 | Wherever the script is, there is a run in which the last process of the longest chain calls `application.Start` |
| Reexec.ChainDepthIsBounded | daemon_systemv_linux.go:50-98 | For every schedule, a `start` under a script n levels up re-executes at most 6 - n times, and not at all under one more than five levels up |
| Reexec.ChainBoundIsReached | daemon_systemv_linux.go:50-98 | Both bounds are tight: under a script n levels up, undisturbed walks re-execute 6 - n times |
| Reexec.StepKeepsOrder | daemon_systemv_linux.go:130-154 | While nobody before it has left, every process's walk is where an undisturbed walk would be, whatever else happens to the table |
| Reexec.NegativeWalkMeansSomeoneLeft | daemon_systemv_linux.go:50-97 | A process with the script within its five ancestors reaches the daemon branch only after some process before it left `RunUntilExit` |
| Reexec.ParentLeavesBeforeTheDaemonStarts | daemon_systemv_linux.go:50-117 | When the first child reaches the daemon branch its parent has left `RunUntilExit`, and if the parent returned nil the file holds the child's pid before `application.Start` |
| Reexec.ReachIsExact | daemon_systemv_linux.go:130-154 | For every process of the chain and every distance of the script: each run has someone leave before that process becomes a daemon if and only if its walk does not fall just short of the script |
| Reexec.DaemonMayStartFirst | daemon_systemv_linux.go:130-154 | The process whose walk falls just short of the script can be in the daemon branch while all those before it have yet to write the emptied file |
| Reexec.ParentLeavesFirstExactly | daemon_systemv_linux.go:50-117 | The first child becomes a daemon only after its parent has left, on every run, if and only if the script is not exactly the fifth ancestor of the program |
| Reexec.PidFileNamesExactly | daemon_systemv_linux.go:72-98 | In every run, while the last process has not touched the file, its parent was the last to open it, and the file is the pid line of `p` if and only if `p` was written last and no line written since that open is longer |
| Reexec.WritesInOrderCanSpoilTheFile | daemon_systemv_linux.go:72-90 | Under a script at most four levels up there is a run with two forks whose parents write in order and both return nil, and the file is no pid line |
| Reexec.OvertakenWriteSpoilsTheFile | daemon_systemv_linux.go:72-90 | Likewise a run in which the second parent writes first, and the file names a process that has returned instead of the running child |
| Reexec.UndisturbedWalk | daemon_systemv_linux.go:130-154 | A walk that nothing disturbs settles on the script exactly when it is within five ancestors |
| Reexec.SettledIsReached | daemon_systemv_linux.go:130-154 | A walk gets to where it settles by steps of its own process alone, as a run of the step system |
| Reexec.ReadsAreTheParsers | daemon_systemv_linux.go:156-196 | The parsers, run on the `/proc` files of a process table with its zombies, see exactly what the stepwise walk reads |
| Reexec.WalkBySteps | daemon_systemv_linux.go:130-154 | On a table that stands still the stepwise walk settles where the loop `Proc.IsInitdOurParent` leads: an error returns it, a script takes the forking branch, a clean negative the daemon branch |
| InitdProtocol.StepKeepsInv | control/controller_systemv_linux.go:169-189 | Every step of script, program and daemons, other than a failed write for a child that may yet run or a child that finds the script, keeps the invariant: at most one daemon can still touch application or file, and the file names it unless its pid is about to be written |
| InitdProtocol.AtMostOneApplication | daemon_systemv_linux.go:50-127 | Over every sequence of `start` and `stop` and every interleaving, failed writes for children that are past the file included, at most one process is between `application.Start` and the return of `application.Stop` |
| InitdProtocol.SecondIsLetInExactly | daemon_systemv_linux.go:50-90 | From every state with the invariant and for every event: steps of neither of the following kinds can lead on to two running applications if and only if the event is a pid write that fails while its child may yet run, or a child that finds the script |
| InitdProtocol.HarmlessRunsExactly | daemon_systemv_linux.go:50-127 | For every run: at no moment can steps of neither kind alone lead on to two running applications, if and only if the run has no such event |
| InitdProtocol.BothExceptionsCanHappen | daemon_systemv_linux.go:50-90 | Both kinds of event can occur in a first `start`, whatever the pid file held |
| InitdProtocol.RunningApplicationIsNamed | daemon_systemv_linux.go:87-90 | Once the script has returned, the pid file is exactly the pid line of the running application |
| InitdProtocol.ScriptActsOnTheRunningApplication | control/controller_systemv_linux.go:117-131 | While an application runs, `stop` sends its signal to that process, and `start` does nothing |
| InitdProtocol.PidFileHoldsWholeLines | daemon_systemv_linux.go:72-114 | Across all generations, from the first open on, the file is empty or exactly the pid line of a daemon, with no gap and no leftover digits; before, it is what it was |
| InitdProtocol.OrderlyRunsLeaveNoPid | daemon_systemv_linux.go:106-114 | When daemons are neither killed nor truncate before their pid is written, the file is empty once no daemon is left that could be running, or as it was if it was never opened |
| InitdHistory.DaemonFollowsTheProgram | daemon_systemv_linux.go:50-127 | After every run each step of a daemon may happen if and only if its latest step was the one before it in the program: a successful start waits for a signal, a failed start or a stop leads to the clean-up |
| InitdHistory.SecondForkFollowsTheProgram | daemon_systemv_linux.go:50-94 | The same for a child that finds the script and forks again |
| InitdHistory.SecondForkRuns | daemon_systemv_linux.go:50-94 | That child opens the file anew, hands it to a child of its own, writes that one's pid and exits without emptying the file |
| InitdHistory.ScriptFollowsItsAction | control/controller_systemv_linux.go:169-189 | The same for the script: a `start` opens the file only after its status test found nobody, a `stop` signals only after its own found somebody |
| InitdHistory.SignalsGoWhereThePidFilePoints | control/controller_systemv_linux.go:117-131 | In every run the signalled processes are those signalled from elsewhere and the live ones the pid file named when `stop` read it |
| InitdHistory.CleanUpComesLast | daemon_systemv_linux.go:106-127 | In every run a clean-up has an earlier failed start or stop, a stop an earlier signal taken, and that an earlier successful start |
| InitdHistory.StartBringsUp | control/controller_systemv_linux.go:169-176 | From every state at rest there is a `start` after which the application waits for its signal, or has failed, with the file naming the process |
| InitdHistory.StopBringsDown | control/controller_systemv_linux.go:177-189 | From there a `stop` ends it: stopped, file empty, process gone |
| InitdHistory.FailedStartCleansUp | daemon_systemv_linux.go:106-120 | A start that fails empties the file and leaves the service at rest, without a signal |
| InitdHistory.LivesFollowOneAnother | control/controller_systemv_linux.go:169-189 | From every state at rest there is a run with any number of whole lives one after the other |
| Replacer.Replace | control/controller_systemv_linux.go:407 | The loop with its two positions computes the recursive single pass |
| Replacer.SinglePassRenders | control/controller_systemv_linux.go:398-407 | For all values, also ones that hold placeholders, the single pass over the flattened template is the template filled hole by hole |
| Replacer.PairOrderIsIrrelevant | control/controller_systemv_linux.go:398-405 | Any order of the replacement pairs gives the same text |
| Replacer.OnePassFills | control/controller_systemv_linux.go:269-277 | Replacing one placeholder fills that name's holes and no closing delimiter is taken for an opening one |
| Replacer.OnePassIsManyPasses | control/controller_systemv_linux.go:398-407 | When no value holds a delimiter, one pass equals one pass for each placeholder in any order |
| Replacer.LeftoverDelimiter | control/controller_systemv_linux.go:408-410 | A delimiter is left exactly when an inserted value holds one |
| SystemvScript.SystemvLiteralsAreText | control/controller_systemv_linux.go:26-66 | The template's literal text is free of delimiters, and none of its lines can be mistaken for the pid path line |
| SystemvScript.CleanAddsNoDelimiter | control/controller_systemv_linux.go:391-396 | Cleaning the log path may drop a delimiter but never brings one in |
| LogPath.CleanIsClean | control/controller_systemv_linux.go:391-396 | A cleaned path has no empty, `.` or `..` element |
| LogPath.CleanKeepsClean | control/controller_systemv_linux.go:391-396 | A path without such elements stays as it is, so cleaning twice is cleaning once |
| LogPath.CleanLaws | control/controller_systemv_linux.go:391-396 | Down and up again, `.`, and doubled slashes drop out of a path, and `..` at the root does |
| LogPath.LogPathIsRendered | control/controller_systemv_linux.go:389-405 | The rendered script in full from its pid path line on: no log path without the native logger; with it `/var/log/<id>/<id>.log` for an id that is a file name, and that path cleaned for every other id |
| SystemvScript.ScriptLeftover | control/controller_systemv_linux.go:398-410 | The rendered script holds a delimiter exactly when daemon id, description, program path, user or an argument does |
| SystemvScript.NewSystemvController | control/controller_systemv_linux.go:383-433 | Which configurations are refused, and with which error; every other one gets the template with all holes filled (`PidPath.ScriptByLines` and `LogPath.LogPathIsRendered` say with what), and its path under `/etc/init.d` |
| SystemvScript.ScriptIsRendered | control/controller_systemv_linux.go:26-66 | For the actual template: rendering is compositional in every order of the pairs, and equals one pass for each placeholder where the check passes |
| PidPath.PidFilePathFromInitdScript | daemon_systemv_linux.go:213-236 | The scanner loop computes the line-by-line scan of what the read limit keeps |
| PidPath.ScriptByLines | control/controller_systemv_linux.go:26-66 | The rendered script is its header lines, the pid path line, and the rest |
| PidPath.ScanHeader | daemon_systemv_linux.go:223-233 | Scanning complete header lines finds nothing and goes on behind them, or fails exactly when one is too long for the scanner |
| PidPath.ScanCutHeader | daemon_systemv_linux.go:220-235 | When the read limit falls in the header the scan fails |
| PidPath.ScanPidLine | daemon_systemv_linux.go:223-228 | What the scan makes of the pid path line, for every number of bytes the read limit keeps of it |
| PidPath.WholePidLineIsFound | daemon_systemv_linux.go:213-236 | A text with a whole line for any path behind header lines that fit, within the first 100000 bytes and whichever quotes and line ending it has, scans to that path |
| PidPath.FallbackAgrees | daemon_systemv_linux.go:68-70 | The base name of the script's path is the daemon id, so the daemon's default path is the one the controller renders |
| PidPath.PidPathsAgree | daemon_systemv_linux.go:65-70 | The daemon's path, found or by default, equals the rendered one if and only if the read limit does not fall behind `PID_FILE_PATH=` and before the end of the path, unnoticed by an over-long line |
| PidPath.SystemvPidPathsAgree | control/controller_systemv_linux.go:26-66 | The same for the template as it stands |
| PidPath.PathIsFound | daemon_systemv_linux.go:213-236 | When the rendered header fits and the limit comes behind the line, the scan of the script finds `/var/run/<id>.pid` itself, not by default |
| PidPath.PidPathsCanDisagree | daemon_systemv_linux.go:220-228 | Every template whose header is of ordinary size has a configuration that runs into that exception |
| PidPath.SystemvPidPathsCanDisagree | control/controller_systemv_linux.go:26-66 | The template as it stands has one |
| Filewriter.NoWriteAfterHandover | examples/filewriter/main.go:189-201 | After any caller's stop rendezvous no line is written and no other caller gets through |
| Filewriter.AtMostOneStops | examples/filewriter/main.go:149-174 | Of any number of concurrent callers at most one returns nil |
| Filewriter.OutcomesAreExact | examples/filewriter/main.go:149-174 | Nil exactly when both rendezvous happened, the rejoin error exactly when only the first did, the stop error exactly when none did; the file is closed exactly when some rejoin completed |
| Filewriter.TimedOutRejoinBlocksTheWriter | examples/filewriter/main.go:196-199 | After a rejoin that timed out, no step moves the writer or writes a line |
| Filewriter.StopReturnsInTime | examples/filewriter/main.go:150-171 | Every call returns within seven seconds; the stop error comes after exactly five, the rejoin error after at least two |
| Filewriter.CalledWhenItWas | examples/filewriter/main.go:149-152 | These times count from the moment of the call |
| Filewriter.LinesFollowTheTicker | examples/filewriter/main.go:186-195 | The file has one line for each tick taken, and at most one for every five seconds that passed |
| Filewriter.TimeIsNeverStuck | examples/filewriter/main.go:156-171 | Whenever time may not pass, a timer that has fired can be taken |
| Filewriter.StopCanSucceed | examples/filewriter/main.go:155-174 | At every moment of every run before the first handover a new call can get through at once, return nil and have the file closed |
| Filewriter.RendezvousAreExact | examples/filewriter/main.go:189-201 | A waiting caller can hand over if and only if nobody has, and rejoin if and only if it has handed over |
| Filewriter.LinesAreWritten | examples/filewriter/main.go:186-195 | After five seconds a line can be written, and the next is due five seconds later |
| Filewriter.StopCanTimeOut | examples/filewriter/main.go:170-171 | There is a run in which a call returns the stop error |
| Filewriter.RejoinCanTimeOut | examples/filewriter/main.go:166-167 | There is a run in which a call returns the rejoin error |
| ServiceStop.StopAndWait | control/controller_windows.go:219-251 | For every sequence of answers: nil if and only if the last answer is the state Stopped, an error of the service if and only if the last answer is that error, the timeout error if and only if it is another state, and then at the deadline; all earlier answers are states other than Stopped; number of queries and elapsed time |
| ServiceStop.NoOverflowExactly | control/controller_windows.go:234-273 | The registry values for which no 64-bit operation overflows: exactly -9223372036854 to 9223372036754 |
| ServiceStop.GiveUpAfterInRange | control/controller_windows.go:229-234 | In that range the loop gives up after the configured time plus 100 ms, or 20.1 s for none |
| ServiceStop.TimeoutIsHonouredExactly | control/controller_windows.go:229-273 | For every registry value: the loop gives up at that value plus 100 ms if and only if the sum fits 64 bits and the value is no multiple of 2^58, even when the product overflows on the way |
| ServiceStop.PositiveTimeoutIsHonouredExactly | control/controller_windows.go:229-273 | For every printed positive 64-bit number that is up to 9223372036754 |
| ServiceStop.DefaultAppliesExactly | control/controller_windows.go:229-232 | The 20 s default applies exactly to a missing or unparsable value and to multiples of 2^58, zero among them |
| ServiceStop.AtoiOfSigned | control/controller_windows.go:268-271 | A printed number with a sign parses to its value or is an error, by its size |
| ServiceStop.PollingBound | control/controller_windows.go:227-249 | The most queries there can be: (timeout + 100 ms) / 50 ms rounded down, less one when the last tick ties with the timeout and loses; none for timeouts of -100 ms and less; 402 or 401 for the default |
| ServiceStop.OverflowGivesUpAtOnce | control/controller_windows.go:234 | Timeouts from just above the range to twice its size make the loop give up without a query |
| WindowsService.ServiceWrapper.Execute | daemon_windows.go:121-159 | For every request stream with a Stop or Shutdown: the exact order of reported statuses and calls of the application, Running with its accepted commands among them; the last request consumed is the first Stop or Shutdown; exit codes; and the error field is the start error, the stop error, or what it was |
| WindowsService.ServiceWrapper.RunAndBlock | daemon_windows.go:96-115 | The start error if there was one, else the stop error, else that of the runner, nil exactly when there is none, whatever error an earlier run left |
| WindowsService.EchoOfEach | daemon_windows.go:142-143 | Every Interrogate before the end has its echo at its place in the order |
| WindowsService.EachEchoAnswers | daemon_windows.go:142-154 | Every echo answers an Interrogate: other commands are passed over |
| WindowsService.TraceNeverGoesBack | daemon_windows.go:124-147 | If Interrogates echo the last reported status, the reported states never go backwards |

## Left out

- The systemd and launchd controllers and daemonizers, `NewController`, `runSettings`, `Execute` in `control/common.go` and the exit-code switches: they wrap tools, and one branch settles them.
- Executable search, `service`, `update-rc.d`, registry access, event log and service manager handles: only their answers appear, as inputs.
- The script's `restart`, `reload` and `condrestart` actions, the Red Hat branch and the `pkill` on halt: they rely on helpers that are not part of this model, and `restart` skips the status test.
- Template text behind the pid path line: it is a parameter, and the results hold for every such text without a delimiter.
- Refilling of the `bufio.Scanner` buffer: the scanner is modelled by what it does with a line, which is to fail from 65536 bytes on.
- Delivery of signals, logging setup and the `PS1` test: a signal that is taken is a step, runs are non-interactive, and that some run gets there is claimed but not that every one does.
- InitdProtocol.AtMostOneApplication: takes as given that the program finds the script and that pids are not reused; `Reexec` treats the walk itself, with its errors.
- The reader of the pid file in `start-stop-daemon` is not part of this model: a content counts as naming a process when it is a line of digits, and another reader may take more.
- Reexec.ChainIsBounded: takes as given that no process of the chain names a script in its own first four arguments and that orphans go to process 1.
- Filewriter.NoWriteAfterHandover: the model has one writer, which is what one `Start` launches, and writes of a line that fail are not told from others.
- ServiceStop.StopAndWait: queries take no time, and when a tick and the timeout are due together a parameter says which is taken first.
- WindowsService.ServiceWrapper.RunAndBlock: the mutex is not modelled, as the runner returns before the error is read; the runner calls `Execute` at most once.
- The step systems model processes and goroutines as values that steps replace, since their point is interleaving; aliasing of Go objects does not occur in them.
