# Vibepit: a verified model of its stateful core

Vibepit runs coding agents in sandbox containers. This project models, in Dafny,
the parts of it whose correctness rests on arguments that span several
functions, goroutines or calls, and proves those arguments for all inputs, all
runs and all interleavings.

* **Persistent sessions** (`session/`). `Session.dfy` is a step system with one
  action per critical section of `session.go` and `client.go`, and the gaps
  between them; any interleaving of pump, attaches, closes, reads and the exit
  sequence is a sequence of actions. The terminal emulator is an arbitrary
  function of the output and resizes it was fed; `Screens.dfy` and `Crlf.dfy`
  build the replay bytes from what it shows. `SessionObjects.dfy` holds the
  `Client` and `Session` objects; each of their methods takes them from one
  reachable state of the step system to another, so the theorems hold of them. `Manager.dfy`, `StateFile.dfy` and `LockOrder.dfy` cover the session
  limit, the state-file writers and the locks. The theorems about sessions are in
  `SessionTheorems.dfy`.
* **Command mode and alerts** (`ward/`). `CommandInput.dfy` is `processInput`,
  `EventLoop.dfy` the event loop with its closures, `Ward.dfy` both together
  with the channel between them and the timers, `WardHistory.dfy` what happened
  over a run, byte by byte and event by event, and `WardTheorems.dfy` what holds
  of every run.
* **Byte streams**: `Osc133.dfy`, `Scanner.dfy` and `Output.dfy` (`ward/`),
  `ShellWords.dfy` and `RawSession.dfy` (`sshd/`, `cmd/exec.go`).
* **Proxy data**: `Presets.dfy`, `Allowlist.dfy`, `AllowlistAdd.dfy`,
  `LogBuffer.dfy`, and `Polling.dfy` for the monitor that reads the log.

A state machine is always `State`, `Action`, `Enabled`, `Apply`, `Exec` and
`Reachable`; its invariant is `Inv`, kept by every step (`StepKeeps`) and hence
by every run (`RunKeeps`). Fields described as history record what happened and
steer nothing. An operation that updates fields in place is a class method,
specified by the step function on what the fields stand for. `dafny verify dfyconfig.toml`
checks everything.

Where the code and its comments differ, the model follows the code. Four
properties hold only under a condition, which is proved to be exact: cooking
line breaks piecewise (`Crlf.ToCrlfStreaming`), handing `TakeOver` a client
(`SessionTheorems.TakeOverNeedsAttached`), polling without a gap
(`Polling.NoGapExactly`), and taking end of file without a reason for an exit
(`SessionTheorems.EofWithoutReasonMeansExit` with
`SessionTheorems.SilentCloseIsSafeExactly`). On the last point the comment at
session/client.go:24-27 promises more than its caller keeps: the handler at
sshd/server.go:410-434 takes the end of its output copy for end of file, but the
copy also ends on a write error; it then finds no reason, reports a clean exit
and closes the client without a reason while the shell may still be running.

## Model

| member | source | states |
|---|---|---|
| `SessionTheorems.ReplayThenLive` | session/session.go:134-207 | in every interleaving, a client that is not closed has been sent bytes that show the emulator's screen after exactly the chunks before its attach, then every later chunk, none missing, repeated or reordered (at most the chunk in hand is owed); a closed client gets a subsequence of that |
| `SessionTheorems.ChannelSafety` | session/client.go:84-169 | no send on a closed channel, no double close; bytes read, plus pending, plus queued, are exactly the bytes enqueued; the queue never exceeds 1024 |
| `SessionTheorems.PendingTakes` | session/client.go:86-91 | a read is served from the remainder of the last chunk; it gets all of it or as much as fits, and leaves the rest |
| `SessionTheorems.ChunkTakes` | session/client.go:93-102 | with no remainder, the same from the next chunk |
| `SessionTheorems.ReaderGetsAll` | session/client.go:84-105 | in every reachable state, reading on with any room drains everything the client has been sent |
| `SessionTheorems.WriterSetsTheSize` | session/session.go:231-302 | the size changes only to what the writer, or the client that becomes writer, asks for, and the emulator is told |
| `SessionTheorems.WriterGetsTheSize` | session/session.go:157-164 | the writer's resize, a take-over and the first attach with a size do change it |
| `SessionTheorems.ReasonsAreRecorded` | session/session.go:268-274 | the reason of the last client that left with one is on record; a client pump drops leaves as a slow consumer |
| `SessionTheorems.DroppedOnlyWhenFull` | session/client.go:142-160 | only a client with 1024 chunks unread is dropped, one with room is served |
| `SessionTheorems.CallersAreFree` | session/session.go:134-431 | attaching, closing, writing and exiting are never held back |
| `SessionTheorems.NobodyHangs` | session/session.go:357-368 | once pump has ended, every client ever returned by Attach has its output closed or is itself closed, so Read cannot block |
| `SessionTheorems.ExitDeliversEverything` | session/session.go:339-368 | a client that has read end of file without having been closed has read its replay and all output since |
| `SessionTheorems.EofWithoutReasonMeansExit` | session/client.go:24-27 | in any run whose callers close without a reason only once the shell has exited, end of file with no reason means that the session exited |
| `SessionTheorems.SilentCloseIsSafeExactly` | session/client.go:124-131 | in every reachable state, closing a client without a reason is harmless if and only if the shell has exited: before that some continuation lets the client read end of file with no reason while the session runs |
| `SessionTheorems.WriterIsAttached` | session/session.go:157-164 | clients are distinct and in attach order; there is a writer exactly when there are clients, and it is one of them |
| `SessionTheorems.DetachPromotesLatest` | session/session.go:251-266 | detaching removes exactly that client; if it was the writer, the most recently attached remaining client takes over, otherwise the writer stays |
| `SessionTheorems.TakeOverNeedsAttached` | session/session.go:231-238 | the membership invariant survives TakeOver if and only if the client handed to it is attached |
| `SessionTheorems.PumpAlwaysMoves` | session/session.go:339-368 | pump never waits for a client: unless it is dropping one, it can take its next step |
| `SessionTheorems.SlowClientIsDropped` | session/client.go:142-160 | while pump drops a slow client, the close it waits for can always go on |
| `SessionTheorems.ExpiryStarted` | session/session.go:251-287 | once waitForExit is done an empty client list means that expiry was started, and expiry starts only for an exited session without clients |
| `SessionTheorems.WritesSplit` | session/session.go:339-356 | the output splits at any attach point into what the replay shows and what is delivered live |
| `SessionTheorems.OutputIsKept` | session/session.go:339-356 | over every run the emulator has been fed every chunk the pump read, in order, with or without clients |
| `Session.StepKeeps` | session/session.go:134-457 | every action of pump, Attach, CloseWithReason, Detach, TakeOver, Resize, Read, waitForExit and expiry keeps the session invariant |
| `Session.ReachableInv` | session/session.go:134-457 | the invariant holds in every reachable state, for every emulator |
| `Session.RemoveIs` | session/session.go:255-260 | removing a client keeps attach order and removes only that client |
| `Screens.RenderShows` | session/session.go:173-201 | the replay is a reset, the scrollback followed by the screen with every line break made \r\n, and the cursor put back at row y+1, column x+1 if anything is on the screen; a full-screen application gets the switch to the alternate screen and nothing else |
| `SessionObjects.Client.Deliver` | session/client.go:142-160 | sends exactly when the output is open and has room (a closed client may lose the race), reports a slow consumer exactly when open, not done and full, and otherwise changes nothing |
| `SessionObjects.Client.Read` | session/client.go:84-105 | returns all that is left of a chunk or as much as fits, keeps the remainder, adds exactly that to what was read, and reports end of file only when nothing is pending and the client is closed or drained |
| `SessionObjects.Session.Attach` | session/session.go:134-207 | from any reachable state to a reachable one: the new client object joins last, with the replay of all output so far as the first thing it was sent, and becomes writer if there was none; after the exit it is returned with its output closed; the delivery under the lock never finds the queue full |
| `SessionObjects.Session.Detach` | session/session.go:251-287 | the list of client objects, the promoted writer, the recorded reason and the expiry are those of the protocol's detach |
| `SessionObjects.Session.CloseWithReason` | session/client.go:124-131 | the first reason given wins, later calls change nothing, and the objects stand for a reachable state again |
| `SessionObjects.Session.PumpRead` | session/session.go:339-356 | one iteration of the fan-out over client objects, dropping slow ones: afterwards every client that is attached and not closed has been sent exactly its replay and every chunk since it joined |
| `SessionObjects.Session.PumpFails` | session/session.go:357-368 | after pump's last loop every client object ever returned has its output closed or is itself closed |
| `SessionObjects.Session.ReadFrom` | session/client.go:84-105 | reading keeps the objects in a reachable state, fills the room or leaves nothing of the chunk, and returns exactly what the history of bytes read grows by |
| `Crlf.ToCrlfCooks` | session/session.go:469-472 | the result breaks lines only with \r\n; cooking is idempotent; it loses only the difference between \n and \r\n |
| `Crlf.ToCrlfStreaming` | session/session.go:466-472 | cooking two pieces equals cooking the whole if and only if the cut does not split a \r\n |
| `Manager.LimitHolds` | session/manager.go:66-79 | running sessions never exceed the limit, although sessions exit while Create counts them one at a time |
| `Manager.NamesAreUnique` | session/manager.go:81-88 | no two sessions of a run get the same name |
| `Manager.RemovedMeansGone` | session/manager.go:90-95 | a session leaves the manager only when it has exited and nobody is attached, and stays so |
| `Manager.ExpiredLeaves` | session/manager.go:90-95 | a session whose expiry has started can always be taken off the list, and only it is |
| `Manager.GoneIsFinal` | session/session.go:137-145 | an exited session without clients never gets a client again |
| `Manager.StepKeeps` | session/manager.go:66-98 | every step of Create, cleanup or any session keeps the manager invariant |
| `Manager.SessionManager.CountActive` | session/manager.go:70-75 | the loop counts the sessions that are listed and have not exited |
| `Manager.SessionManager.Create` | session/manager.go:66-98 | refused exactly at the limit; a failed start uses up a number and nothing else; otherwise one session is added under a new number |
| `Manager.CreateRuns` | session/manager.go:66-98 | an undisturbed Create, whatever its outcome, is a run of the step system |
| `StateFile.DiskNeverGoesBack` | session/statefile.go:13-41 | with any number of writers, the version of each session on disk never decreases over any continuation of any run |
| `StateFile.ReturnedMeansWritten` | session/statefile.go:13-41 | when a writer returns without a file error the disk is at least as new as every session was at its call |
| `StateFile.AtRestFileIsCurrent` | session/manager.go:126-130 | when all writers are back without error and every exit is settled, the file shows the current state of every session |
| `StateFile.SomeWriterMoves` | session/statefile.go:13-41 | while a writer has not returned, it or the holder of stateFileMu can go on |
| `StateFile.StepKeeps` | session/statefile.go:20-40 | every step of every writer keeps the protocol invariant and the disk monotone |
| `LockOrder.ProgramOrdered` | session/statefile.go:13-41 | every path of every entry point takes stateFileMu, Manager.mu, closeOnce, Session.mu and outputMu only in that order and releases what it took |
| `LockOrder.NoCyclicWait` | session/client.go:124-169 | no reachable state of any number of threads has a cycle of threads each waiting for a lock the next one holds |
| `LockOrder.SomeThreadMoves` | session/manager.go:66-130 | while a thread is inside a call, some thread can take a step |
| `LockOrder.SlowBranchUnderSessionMuBreaksOrder` | session/session.go:166-171 | if the delivery under Session.mu could reach the slow-consumer close, the order would be broken |
| `CommandInput.ProcessInput` | ward/command.go:53-177 | every byte of the chunk has one fate; the PTY gets, in order, all bytes but opening hotkeys and what is typed in an open command mode other than a second hotkey; the requests sent are exactly those the fates stand for; command mode stays open after an opening or an unmatched key only |
| `CommandInput.LogIsDecided` | ward/command.go:53-177 | that account leaves no choice: input, keys on offer and cancellation decide the fate of every byte |
| `CommandInput.CommandByte` | ward/command.go:107-173 | Esc, second hotkey, unmatched key and action key are told apart by the byte and the keys on offer, each with its requests; only a second hotkey is written to the PTY |
| `CommandInput.CommandLoop` | ward/command.go:95-174 | command mode stays open only through unmatched keys and ends early only on a close or a cancellation |
| `CommandInput.OpenAtHotkey` | ward/command.go:57-91 | command mode opens exactly when the hotkey occurs, and everything before it is passed on |
| `CommandInput.PassRest` | ward/command.go:97-101 | what is left of the chunk is passed on in order |
| `WardTheorems.RequestsFitTheLoop` | ward/wrapper.go:451-545 | the loop meets EnterCommand only while command mode is off, and the result of an action only while it waits for exactly that action |
| `WardTheorems.ResultsReachTheLoop` | ward/command.go:158-168 | over every run the results the loop has handled, then the one in the channel or about to be sent, are exactly what OnKey returned, call by call, each under its call's generation; at most one is on its way |
| `WardTheorems.ResultIsShown` | ward/wrapper.go:520-544 | when the loop takes a result, command mode closes and the bar shows the error, the message, or whatever is next |
| `WardTheorems.BothSidesAgree` | ward/wrapper.go:451-551 | in command mode the goroutine holds the loop's generation and, unless cancelled, the target and keys of the active alert; while an action runs the loop waits for exactly that action |
| `WardTheorems.PendingIsBacked` | ward/wrapper.go:508-524 | a pending action has its acknowledgement, its OnKey call or its result on the way |
| `WardTheorems.KeyRunsOnce` | ward/command.go:134-168 | OnKey runs at most once per generation |
| `WardTheorems.KeyWasOnOffer` | ward/command.go:134-168 | every call of OnKey is for the alert its generation was opened on, with that alert's target and the key of one of its hints, one that needs a target only if there is one |
| `WardTheorems.KeyIsWhatWasTyped` | ward/command.go:134-161 | over every run OnKey is called exactly for the acknowledged action keys, in order, each with the byte typed and the generation it was typed in |
| `WardTheorems.KeyRunsAcked` | ward/command.go:141-161 | OnKey is called only on a true acknowledgement, for the alert that is active |
| `WardTheorems.PtyGetsTheRest` | ward/wrapper.go:629-671 | over every run the PTY gets stdin in order minus exactly the opening hotkeys and the bytes taken in a command mode that was open in the loop, other than a second hotkey; such bytes are judged by what the alert command mode was opened on offers; once the loop has ended command mode everything passes; the hotkey is looked for again only from the next chunk on |
| `WardTheorems.RequestsAreTheFates` | ward/command.go:79-166 | the goroutine's events reach the loop in the order sent, and each byte done with had exactly the requests sent on its account that its fate stands for, given the loop's answer and what OnKey returned |
| `WardTheorems.ChunkIsProcessInput` | ward/command.go:53-177 | over every run each chunk done with was dealt with, log and requests, exactly as one call of processInput deals with it that is given what the chunk really met: the loop's offers, its cancellation as it stood at each byte, its acknowledgement and OnKey's result |
| `WardTheorems.NoAlertStuck` | ward/wrapper.go:419-448 | with command mode off and an alert active or queued, a dismissal is armed or in flight; an open command mode always has its time-out armed or in flight |
| `EventLoop.DismissShowsNext` | ward/wrapper.go:436-449 | a dismissal outside command mode brings up the oldest queued alert, which leaves the queue and gets its timer, else the last status, else clears the bar; in command mode it does nothing |
| `EventLoop.CancelRestores` | ward/wrapper.go:360-398 | cancelling the open generation puts its alert back on the bar or brings up what is next; any other cancellation does nothing |
| `EventLoop.StatusIsShown` | ward/wrapper.go:420-424 | a status is kept, and shown unless an alert or command mode has the bar |
| `WardTheorems.LastStatusIsKept` | ward/wrapper.go:420-424 | over every run the loop falls back to the last status it has heard |
| `EventLoop.VisibleKeysAre` | ward/wrapper.go:340-353 | the keys on offer are exactly those of the alert's hints that need no target or have one, in order |
| `WardTheorems.NoDeadlock` | ward/command.go:53-177 | the stdin goroutine is waiting for the user, or can take its next step, or is waiting for the loop, which then has an event to handle |
| `WardTheorems.NoAlertLost` | ward/wrapper.go:426-448 | over every run the alerts published are, in order, those the loop has received and those still in the channel; the queue never exceeds 64; each alert received was shown at once, shown from the queue, dropped as the oldest of a full queue, or is queued; alerts leave the queue in arrival order |
| `WardTheorems.ShownWasOnBar` | ward/wrapper.go:284-303 | over every run each alert booked as shown was active and on the bar at a moment of its own, alerts from the queue in the order they left it |
| `WardTheorems.BarShowsAlert` | ward/wrapper.go:284-300 | the bar shows the active alert, or in command mode its target |
| `Ward.StepKeeps` | ward/wrapper.go:412-671 | every step of stdin goroutine, event loop, timers and status source keeps the joint invariant |
| `Ward.ReachableInv` | ward/wrapper.go:264-671 | the joint invariant holds in every reachable state |
| `WardHistory.StoryAdds` | ward/wrapper.go:412-671 | over every run, bytes, requests, answers, the channel and the alerts received add up |
| `WardHistory.AlertsCarried` | ward/wrapper.go:426-434 | alerts reach the channel only by being published, in order |
| `WardHistory.OutcomesPaired` | ward/command.go:158-168 | every result on its way or handled is, call by call, what OnKey returned |
| `EventLoop.BarLoop.Serve` | ward/wrapper.go:405-555 | the loop, fed any events in any order: the alerts received grow by exactly the alerts among the events, in order, each accounted for; the last status among them is kept; the queue holds at most 64; the bar shows the active alert or in command mode its target; timers and context belong to the open generation |
| `EventLoop.LoopKeeps` | ward/wrapper.go:405-555 | no event breaks the loop's invariant, expected or not |
| `EventLoop.BookKeeps` | ward/wrapper.go:426-448 | every event that is an alert is received, no other is, and none loses or duplicates an alert or lets the queue grow past 64 |
| `EventLoop.AllReceived` | ward/wrapper.go:405-448 | over any events, received are exactly the alerts among them, in order |
| `EventLoop.HandleBooks` | ward/wrapper.go:284-448 | an alert is shown at once or queued; any other event at most shows the oldest queued alert; what is shown is then active and on the bar |
| `Osc133.ChunkingIrrelevant` | ward/osc133.go:65-96 | feeding a stream in any chunks gives the same events and the same parser |
| `Osc133.ParsesWhatIsPrinted` | ward/osc133.go:65-127 | for every list of markers, any 32-bit exit code, BEL or ST ending, ESC-free text between: exactly that list is emitted and the parser ends in the last marker's zone |
| `Osc133.EmitsTheMarkers` | ward/osc133.go:65-127 | on any stream of complete sequences, other escapes, broken-off and overlong strings included, exactly the markers among them are emitted, in order, and the zone is the one the last of them starts |
| `Osc133.DecodeIs` | ward/osc133.go:98-127 | exactly 133;A, B, C and D are markers, D with the number after a semicolon if it is one; anything else is none |
| `Osc133.ParseIntIs` | ward/osc133.go:117-123 | the exit code parsed is the number denoted, with or without sign, if 32 bits can hold it |
| `Osc133.DecodeBody` | ward/osc133.go:98-127 | decoding undoes printing, and every printed body fits the buffer |
| `Osc133.ParsePrintInt` | ward/osc133.go:117-123 | every 32-bit exit code survives printing and parsing |
| `Osc133.BufferBounded` | ward/osc133.go:85-88 | the parameter buffer never exceeds 32 bytes |
| `Osc133.OSC133Parser.PushByte` | ward/osc133.go:67-94 | one byte through the object is one step of the specification, the fixed buffer holding its parameters |
| `Osc133.OSC133Parser.PushChunk` | ward/osc133.go:65-96 | Push over a chunk is the fold of that step |
| `Scanner.TokensScanned` | ward/scanner.go:46-111 | on a stream of complete tokens a reset, or an erasure, is reported if and only if one of them causes it by a per-token specification on bytes, and the scanner is back in ground |
| `Scanner.TokenScanned` | ward/scanner.go:46-111 | the same for one token: plain byte, two-byte escape, CSI or string |
| `Scanner.NotGroundInside` | ward/scanner.go:106-111 | between the bytes of one sequence the scanner is never in ground |
| `Scanner.ScannedAppend` | ward/scanner.go:40-46 | scanning in pieces is scanning the whole, flags joined |
| `Scanner.EscScanner.ScanChunk` | ward/scanner.go:46-104 | Scan over a chunk is the fold of that step |
| `Output.ReadLoop` | ward/wrapper.go:576-626 | the loop, with its scanner and pending flags, writes what the read-by-read specification says |
| `Output.ChildPassesThrough` | ward/wrapper.go:585-596 | stdout minus this goroutine's injections is the child's output byte for byte |
| `Output.NothingInjectedElsewhere` | ward/wrapper.go:607-620 | when stdout is no terminal the child's bytes are all that is written |
| `Output.InjectsOnlyInGround` | ward/wrapper.go:607-620 | cut at any injected item, the child bytes before it leave the scanner in ground |
| `Output.RepairedAtFirstGround` | ward/wrapper.go:607-620 | however the stream is cut, what is injected after a read is decided by what the child has done: nothing outside ground, else the scroll region if a reset is due, then the bar if a reset or an erasure is due and it is not hidden |
| `Output.RepairsAre` | ward/wrapper.go:607-620 | a read ends with a scroll repair if and only if it ends in ground and a reset has met no ground boundary since, and with a bar repaint if and only if moreover or instead an erasure has, and the bar is not hidden |
| `Output.PendingMeans` | ward/wrapper.go:590-592 | each pending flag is set exactly while a reset, or an erasure, is unrepaired |
| `ShellWords.BuildRemoteCommand` | cmd/exec.go:78-87 | tokenising the command line by the shell's quoting rules gives back exactly the arguments |
| `ShellWords.EscapeLexes` | sshd/shell_escape.go:6-22 | an escaped argument, read where a word may start, denotes the argument |
| `ShellWords.ShellEscape` | sshd/shell_escape.go:6-22 | the loop quotes exactly the arguments with an unsafe character, and the empty one |
| `ShellWords.PlainIsUnchanged` | sshd/shell_escape.go:10-20 | an argument is left as it is exactly if it is not empty and made of safe characters only |
| `ShellWords.CommandsAreDistinct` | cmd/exec.go:78-87 | different argument lists give different command lines |
| `Presets.Expand` | proxy/presets.go:60-90 | terminates on every registry and returns without duplicates exactly the domains at the end of a chain of includes from one of the names, each name standing for the last preset so called, by first occurrence in the order in which the presets are finished |
| `Presets.IndexIs` | proxy/presets.go:36-39 | the index holds for each name the last preset so called, and no other name |
| `Presets.NamesInTurn` | proxy/presets.go:86-88 | what the first names lead to is finished before what later names add |
| `Presets.Expander.ExpandAll` | proxy/presets.go:66-88 | the recursive closure visits and finishes presets as the specification says, collecting their domains |
| `Presets.VisitIsReachable` | proxy/presets.go:66-88 | exactly the known presets reachable from the names are finished |
| `Presets.IncludesFirst` | proxy/presets.go:75-83 | what a preset includes is finished before it, unless the two lie on a cycle of includes |
| `Presets.Dedup` | config/config.go:138-151 | keeps the first occurrences of the lists run together |
| `Presets.FirstsAre` | config/config.go:137-151 | the merge keeps the union, has no duplicates and orders elements by first occurrence |
| `Allowlist.Matches` | proxy/allowlist.go:30-66 | true if and only if the host is not empty and replacing ** by some k >= 1 copies of * gives a label-by-label match |
| `Allowlist.MatchMeans` | proxy/allowlist.go:15-66 | for every validated pattern, in terms of the two strings: their labels in order, whatever the case, * for one label and ** for one or more |
| `Allowlist.EntryMeans` | proxy/allowlist.go:129-151 | a valid entry allows a host on a port exactly if its domain covers the host and its port is the same or * |
| `Allowlist.SplitCuts` | proxy/allowlist.go:19-34 | labels are cut exactly at the dots |
| `Allowlist.EndsDecide` | proxy/allowlist.go:36-55 | the index arithmetic on prefix and suffix decides whether some unfolding fits |
| `Allowlist.ParseDomainPattern` | proxy/allowlist.go:15-28 | lowercased labels and the position of the first ** |
| `Allowlist.ValidateDomainPattern` | proxy/allowlist.go:217-245 | accepts exactly non-empty labels with stars only alone, at most one **, and more than a bare star |
| `Allowlist.UnfoldsToPlain` | proxy/allowlist.go:217-245 | unfolding a validated pattern leaves no ** behind |
| `Allowlist.CaseNeverMatters` | proxy/allowlist.go:15-34 | strings that differ only in the case of letters are treated alike, in pattern and host |
| `Allowlist.OnlyCaseFolds` | proxy/allowlist.go:15-34 | and nothing else is blurred |
| `Allowlist.OneLabelHost` | proxy/allowlist.go:217-245 | a one-label host is matched by a validated pattern only if it is that same label |
| `Allowlist.ValidateHTTPEntry` | proxy/allowlist.go:259-286 | accepts exactly the entries domain:port with a valid domain and a numeric or * port |
| `Allowlist.ParseUndoesPrint` | proxy/allowlist.go:129-137 | parsing a valid entry recovers its two parts |
| `Allowlist.Allows` | proxy/allowlist.go:140-151 | true if and only if some rule has the port and matches the host |
| `AllowlistAdd.NoAddIsLost` | proxy/allowlist.go:95-127 | after every run the rules are those of the initial entries followed by those of the entries passed by the committed calls, whole batches in commit order, each once; a call is rejected exactly when its batch is invalid, and then adds nothing |
| `AllowlistAdd.RulesAreOk` | proxy/allowlist.go:95-137 | every published rule is one the matcher can be applied to |
| `AllowlistAdd.AllowedForEver` | proxy/allowlist.go:108-151 | what Allows permits it permits after every continuation, and it can be asked in every reachable state |
| `AllowlistAdd.FailedSwapMeansProgress` | proxy/allowlist.go:118-126 | a swap fails only because another Add committed since the load |
| `AllowlistAdd.AdderMoves` | proxy/allowlist.go:118-126 | an add that was accepted and has not returned can always go on |
| `LogBuffer.Buffer.constructor` | proxy/log.go:47-54 | for every capacity, an empty history with exact ring and statistics |
| `LogBuffer.Buffer.Add` | proxy/log.go:56-79 | the history grows by the entry under the next id and ring and statistics stay exact; it panics exactly when the capacity is 0 |
| `LogBuffer.Buffer.Store` | proxy/log.go:60-66 | the ring, read from its oldest entry, stays the end of the history |
| `LogBuffer.Buffer.CountStats` | proxy/log.go:68-78 | the counts stay those of the whole history |
| `LogBuffer.Buffer.Entries` | proxy/log.go:120-131 | the last min(cap, n) entries of the history |
| `LogBuffer.Buffer.EntriesAfter` | proxy/log.go:88-117 | the entries after the id that the ring still holds, or the last 25 for a first poll |
| `LogBuffer.Buffer.StatsOf` | proxy/log.go:133-142 | counts over the whole history, evicted entries included |
| `LogBuffer.SinceStarts` | proxy/log.go:101-116 | the linear scan finds where the answer starts |
| `LogBuffer.RingStep` | proxy/log.go:62-66 | overwriting one slot and moving on shifts the window by one entry |
| `LogBuffer.SinceIsTail` | proxy/log.go:101-116 | an answer is everything after the id that the ring still holds |
| `LogBuffer.FirstPollTells` | proxy/log.go:94-99 | a first poll is told the latest entries, up to 25 of those the ring holds |
| `Polling.NoGapExactly` | proxy/log.go:88-117 | an answer continues where the client left off if and only if at most cap entries have arrived since |
| `Polling.MonitorIsOrdered` | cmd/monitor_ui.go:180-204 | the monitor shows real entries with strictly increasing ids, whatever the timing and whichever polls fail |
| `Polling.MonitorHasNoGaps` | cmd/monitor_ui.go:180-228 | while no answer found more than cap new entries, the items are a gap-free piece of the history up to the cursor |
| `Polling.PollCatchesUp` | cmd/monitor_ui.go:180-228 | a poll sent, answered and delivered with nothing logged meanwhile keeps what was shown and brings the monitor to the latest entry, without a gap unless more than cap entries had arrived |
| `Polling.MonitorScreen.OnTick` | cmd/monitor_ui.go:211-229 | a request is sent exactly on the first tick or when the interval has elapsed, if none is in flight and the session is connected, for what is after the cursor; after the grace period without a connection the screen goes back |
| `Polling.MonitorScreen.OnPollResult` | cmd/monitor_ui.go:180-204 | an answer appends its entries and moves the cursor to the last, a failure changes neither and marks the session disconnected |
| `RawSession.RequestLoop` | sshd/rawsession.go:105-203 | the loop computes the fold of the request step |
| `RawSession.RepliesAreExact` | sshd/rawsession.go:115-197 | each request is granted if and only if it must be, said in terms of the requests alone |
| `RawSession.AtMostOne` | sshd/rawsession.go:117-178 | at most one PTY and one shell or exec are granted, and no environment or PTY after the program has started |
| `RawSession.HandlerGetsSetup` | sshd/rawsession.go:154-192 | the handler gets exactly the environment granted before it starts, in order, the PTY granted before it starts, and its command |
| `RawSession.LoopAccounts` | sshd/rawsession.go:105-197 | the loop's variables are what the requests say |
| `RawSession.LatestSizeArrives` | sshd/rawsession.go:136-152 | in every interleaving the resize consumer sees a subsequence of the granted sizes that, once drained, ends with the last one; the loop's send never finds the slot taken |

## Left out

- The terminal emulator, PTY ioctls, signals and process killing: the emulator is an arbitrary function of what it was fed, shell exit and read errors may happen at any time.
- Real time: timers are armed, fired or stopped; durations, the saved remainder of an alert's time-out and the hour before expiry are not modelled.
- The Ctrl-L nudge and SIGWINCH after Attach, the exit code, detach times and status labels: they touch nothing the theorems speak of.
- WriteInput checks the writer and then writes outside the lock; the gap between the two is not modelled.
- waitForExit, writeStateFile and the retry loop of Add are steps of step systems, not methods, since other goroutines run between their critical sections; the methods of SessionObjects are undisturbed calls.
- SessionTheorems.ReplayThenLive: for a client whose done channel is closed only a subsequence is claimed, because deliver may then pick either channel.
- WardTheorems.NoAlertLost: arrival order is claimed for queued alerts only; an alert that arrives during the two-second result flash is shown before queued ones.
- CommandInput.ProcessInput: does not model a wrapper without a key handler, where all input passes through.
- Shutdown of the ward wrapper through its done channel, the SIGWINCH handler and the drawing of the bar, whose writes do not look at the scanner.
- Allowlist.CaseNeverMatters: lowercasing is that of ASCII letters; other scripts' letters are left as they are.
- The DNS allowlist: the same patterns and the same retry loop without a port.
- LogBuffer.Buffer.Add: 64-bit wrap-around of ids, and of the generation counter of command mode, is not modelled.
- JSON encoding of the state file, and the case where no state file path is set (only in the lock paths).
- RawSession.RequestLoop: decoding of payloads and the want-reply flag; a payload that does not decode is given as such, and every request has an answer.
- ShellWords.BuildRemoteCommand: word level only; reserved words, assignments and aliases are not considered.
- The monitor's list cursor and scrolling, and everything else that only draws.
- Container control, image signing, mTLS and key generation, the HTTP and DNS servers, YAML configuration files and self-update: input and output over libraries that are not part of this model.
