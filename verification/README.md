# A verified model of the display relay

The relay shows the console of one Proxmox guest on the host's own screen. Two processes do the work: a root
**daemon** that watches the guest, and a **session** that runs the viewer on the kiosk screen; they exchange
newline-framed JSON messages over a Unix socket. This project models both processes, what they say to each other,
and the rewriting of the Moonlight settings file, and proves what they promise over every run.

`dafny verify dfyconfig.toml` checks everything.

## How the project is laid out

| files | what they hold |
|---|---|
| `Wrappers`, `Text`, `Config`, `Messages` | options, Python string operations, the parsed configuration, the messages |
| `History` | the events of a daemon's life, and what can be read off them: the failure window, the status reads, commands, pair launches, waits |
| `DaemonSpec` | every step of the daemon as a function from state, time and observations to state and messages |
| `RuntimeState`, `DisplayDaemon` | the daemon as an object with mutable fields; each method does exactly what `DaemonSpec` says |
| `DaemonInvariant`, `DaemonHistory`, `DaemonChronicle`, `DaemonProperties`, `FailureLimit`, `LaunchSafety`, `SleepingDisplay` | what holds of the daemon over all runs |
| `SessionSpec`, `SessionSupervisor`, `SessionAccount` | the session as functions, as an object, and what becomes of its child processes |
| `Composition`, `Agreement`, `AgreementTheorem`, `BlindTicks`, `Reconciliation`, `ExchangeEnds` | both processes with the queues between them, and the ways the connection is lost; where their records of the console agree, exactly where they do not, and exactly what mends them |
| `ScreenPower` | whether the session's record of its screen is the power state that the daemon means it to be in |
| `Framing` | the two receive loops |
| `Protocol`, `ProtocolReading`, `ProtocolClosure` | schemas, validation, payloads read back, and that neither side refuses what the other sends |
| `WorkspaceModel`, `WorkspaceProofs`, `WorkspaceRewriter`, `SettingsFile` | the settings file, what rewriting its host means, and the rewrite itself |
| `WorkspaceReaders`, `ByteArrayDecoder`, `HostRecovery`, `RecoveredFile`, `OtherPortRecovery` | the two readers of that file, the certificate decoder, and whether a recovered host stays recovered |

Times are whole microseconds and delays whole milliseconds. Everything the processes learn from outside (the guest's
status, how a command, a launch or a probe fares, how often the button was pressed, the PIN that was drawn) is an
input of the step, so a statement about every run covers every behaviour of the outside. The daemon's record carries
a history of its own events that no step reads; `RunHasChronicle` ties every field to it.

Where the code does not do what one would expect, the code is followed and the difference is a theorem:

- Recovery of a Moonlight host is permanent only with the default port, because the lookup compares the authority,
  which carries any other port, with host names, which do not (`RecoveryIsPermanent`, `RecoveryCanFail`).
- The two records of the console come apart when presses of the power button fill the failure window, because the
  messages of that transition are dropped, and when the host is lost while the pairing UI is up, because the daemon
  then keeps its record of a console that it tells the session to stop (`AgreementExactly`,
  `PressesBreakAgreement`, `LostHostBreaksAgreement`).
- They also come apart when the daemon reads of a viewer's start together with the end of the connection: its loop
  (`relayinner_display/daemon.py:2229-2240`) takes the disconnection first and the messages after it, so it records a
  running console with no session (`LossExactly`, `LateStartsBreakAgreement`). The greeting of the next session mends
  all three (`GreetingRestores`). With the session connected, disagreement lasts until the guest goes off, the failure
  window fills, the viewer ends or the connection is lost, and for as long as it lasts no viewer is asked for
  (`RecordsExactly`, `MendsExactly`, `NoLaunchOutOfStep`).
- For the same reason the sleeping state can outlast its meaning: the last report of a session, taken after its end,
  can put the daemon to sleep with no session to wake the display for (`SleepExactlyInRuns`, `SleepCanOutlastOff`).
- `specs/12-vm-power-state-to-host-dpms-control.md:92` has the power intent reapplied whenever the session reconnects.
  The code does not reapply it to a session that connects while the daemon is degraded (`relayinner_display/daemon.py:386-391`), and then the
  session can go on with its screen recorded as on while it is meant to be off (`ScreenExactly`, `SessionsCanGoUntold`).
- Degraded mode is not for good: an applied display power, a started or an exited console leaves it. Only a startup
  error is final (`StartupErrorIsFinal`).

## Model

| member | source | states |
|---|---|---|
| DaemonInvariant.RunKeepsInv | relayinner_display/daemon.py:325-611 | after every run, whatever the session sends: a console is recorded as running exactly when it has a pid and a backend; showing implies running; a pending PIN, its text and its request time come together and only with Moonlight; a pending pair launch implies a pending PIN; an action in flight has a start time; a degraded reason implies the degraded state, which implies a reason or a startup error |
| DaemonChronicle.RunHasChronicle | relayinner_display/daemon.py:325-611 | over every run whose clock does not go back, each field is the summary of the run's history, and every event in the history was permitted when it happened (commands, waits, pair launches and display decisions each by their rule) |
| DaemonHistory.WindowGrows | relayinner_display/daemon.py:2068-2089 | pruning the kept failures and adding one gives all failures since the last clearing that lie within 120 s of the latest, as if nothing had been pruned before |
| DaemonHistory.RecentTwice | relayinner_display/daemon.py:2069-2073 | pruning for an earlier time first never changes what a later pruning leaves |
| FailureLimit.FailuresDegradeExactly | relayinner_display/daemon.py:2058-2086 | over every run and for every next step: if failures fill the window in the step, on presses, in the tick's own read, for a new session or for a launch, the daemon is degraded and its reason is the last of these; if none does, its reason is none, the one from before, or one that no such failure gives |
| FailureLimit.FailuresDegradeIff | relayinner_display/daemon.py:2083-2086 | over every run, a daemon without a degraded reason takes one from a failed Proxmox command exactly when, at that failure, five failures of the history lie within the window |
| FailureLimit.FailureTrips | relayinner_display/daemon.py:2068-2086 | wherever a failure is recorded, the mode becomes degraded for it exactly when the window of the history, this failure included, has reached five, and is otherwise the same |
| FailureLimit.LaunchFailuresNeverTrip | relayinner_display/daemon.py:597-598 | in any run, whatever failed before, a tick that reads the status has no failure fill the window afterwards, so a failed launch never degrades |
| DaemonProperties.LaunchFailuresNeverDegrade | relayinner_display/daemon.py:582-600 | over every run in which the status reads succeed, at most one failure counts at any time, so failed launches alone never reach the limit |
| DaemonProperties.IntentFollowsHistory | relayinner_display/daemon.py:2091-2140 | over every run, the display intent changes only in a tick that reads the status unblocked, and there it becomes on exactly with a start in flight or a guest that is on, off exactly when the guest has been seen in one off state without a break for the delay (the first time also not before the start-up has settled), and otherwise stays; so the first such tick past the deadline does turn it off |
| DaemonProperties.SteadyMeans | relayinner_display/daemon.py:842-846 | the time kept with the status is right: it is at or before `from` exactly when some read at or before `from` and every read after it gave that status |
| DaemonProperties.CommandsApart | relayinner_display/daemon.py:654-728 | over every run, any two commands sent to the guest, accepted or not, are at least the debounce time apart |
| DaemonProperties.CommandsLawful | relayinner_display/daemon.py:664-697 | over every run, a command is sent only with none in flight, a start only to a guest just read as off and a shutdown only to one just read as running or paused |
| DaemonProperties.TickResolvesAction | relayinner_display/daemon.py:730-790 | over every run, a tick that reads the status ends the action in flight exactly when the guest has answered it or its time is over, whichever status was read |
| DaemonProperties.ActionResolves | relayinner_display/daemon.py:730-790 | the same for any successful read, a press of the button included |
| DaemonProperties.PinIsOfLatestLaunch | relayinner_display/daemon.py:923-937 | over every run, a PIN in the state belongs to the latest pair launch and its request time is the time of that launch |
| DaemonProperties.PairLaunchesApart | relayinner_display/daemon.py:915-921 | over every run, successive pair launches with no session coming or going and no end of pairing between them are at least 300 s apart |
| DaemonProperties.BackoffClosedForm | relayinner_display/daemon.py:834-840 | over every run, the next delay is min(initial * 2^k, max) after k waits since the reset and lies within [initial, max], the waits since the reset add up to the closed form, and a pending deadline is that of the latest wait |
| LaunchSafety.LaunchesAreSafe | relayinner_display/daemon.py:498-611 | the launch requests of a tick are exactly the expected ones: at most one; only for a ready session, unblocked, with the guest read as on in this tick and the deadline passed; a Moonlight stream only with pairing confirmed by this tick's probes; a pairing UI only for a host found unpaired, carrying the PIN drawn in this tick |
| LaunchSafety.PairingVerdict | relayinner_display/daemon.py:866-937 | the pairing checks go on to the stream exactly when a probe of this tick confirms pairing, and otherwise send a pair launch exactly when the host was found unpaired and one is due, with its PIN kept in the state |
| LaunchSafety.MessagesNeverConnect | relayinner_display/daemon.py:369-496 | no message of the session makes the daemon ask for a console |
| LaunchSafety.StartupErrorIsFinal | relayinner_display/daemon.py:792-800 | once a startup error is set, at the start or by a button read failure, it stays and no continuation of the run asks for a console again |
| LaunchSafety.PinWasSent | relayinner_display/daemon.py:923-937 | in every reachable state a PIN is the one in the command line of the latest pair launch among all messages sent |
| SleepingDisplay.SleepingMeansOff | relayinner_display/daemon.py:2152-2158 | over every run in which nothing but an announcement is taken without a session, the sleeping state implies a ready session and an intent of off |
| SleepingDisplay.SleepExactlyInRuns | relayinner_display/daemon.py:443-449 | from every reachable state in which sleeping means off, every step keeps it so, late messages included, exactly unless a tick sees the guest on or starting while the daemon sleeps without a session |
| SleepingDisplay.SleepCanOutlastOff | relayinner_display/daemon.py:2229-2240 | there is a run (guest off, a session comes and goes, its last report is taken with its end, guest starts) that ends asleep with an intent of on |
| DisplayDaemon.DisplayDaemon.constructor | relayinner_display/daemon.py:228-306 | a new daemon is in the initial state of the specification |
| DisplayDaemon.DisplayDaemon.Start | relayinner_display/daemon.py:325-354 | the start leaves the state that the specification asks for: degraded for good with a configuration or validation error, waiting for the session otherwise |
| DisplayDaemon.DisplayDaemon.Tick | relayinner_display/daemon.py:498-611 | the tick, done step by step on the mutable fields, leaves the state and returns the messages of the specification, in the order of the source |
| DisplayDaemon.DisplayDaemon.HandleSessionMessage | relayinner_display/daemon.py:369-496 | each of the five messages leaves the state and returns the messages of the specification |
| DisplayDaemon.DisplayDaemon.OnSessionReady | relayinner_display/daemon.py:378-418 | a new session has the display power reapplied and is told the one thing that fits the guest, the pairing and the deadline |
| DisplayDaemon.DisplayDaemon.OnConsoleExited | relayinner_display/daemon.py:451-489 | an exit is recorded and leads back to pairing, to a scheduled reconnect or to waiting |
| DisplayDaemon.DisplayDaemon.OnSessionDisconnected | relayinner_display/daemon.py:356-367 | without a session no console is recorded, and the state is waiting or degraded |
| DisplayDaemon.DisplayDaemon.HandleMoonlightPairing | relayinner_display/daemon.py:866-937 | the pairing checks leave the state and the result of the specification, a raised error included |
| DisplayDaemon.DisplayDaemon.PollPowerButtonSource | relayinner_display/daemon.py:636-652 | the loop over the presses handles each in order, and a failed read becomes a startup error |
| DisplayDaemon.DisplayDaemon.HandlePowerButtonPress | relayinner_display/daemon.py:654-728 | a press leaves the state of the specification for each of its outcomes |
| DisplayDaemon.DisplayDaemon.RefreshPowerButtonAction | relayinner_display/daemon.py:730-790 | the nested checks come to the one resolution of the specification |
| DisplayDaemon.DisplayDaemon.PruneFailures | relayinner_display/daemon.py:2069-2073 | the loop keeps exactly the failures within the window before now, in order |
| DisplayDaemon.DisplayDaemon.RecordProxmoxFailure | relayinner_display/daemon.py:2068-2086 | a failure is recorded after pruning, and the fifth within the window degrades the daemon |
| DisplayDaemon.DisplayDaemon.EnterDegraded | relayinner_display/daemon.py:813-832 | degrading forgets the console, keeps the reason and tells the session to disconnect if there was one and to wait |
| DisplayDaemon.DisplayDaemon.ScheduleReconnect | relayinner_display/daemon.py:834-840 | the deadline is set with the current delay, which is then doubled up to the cap |
| DisplayDaemon.DisplayDaemon.UpdateDisplayPowerIntent | relayinner_display/daemon.py:2091-2140 | the intent is updated as specified and a ready session is told when it changes |
| RuntimeState.RuntimeState.MarkPowerButtonPress | relayinner_display/models.py:71-75 | a press is marked with its time, action and result, and counts as in flight exactly when it was submitted |
| RuntimeState.RuntimeState.MarkConsoleExit | relayinner_display/models.py:77-91 | an exit is marked with its time, code, signal and backend |
| SessionAccount.EveryChildIsAccountedFor | relayinner_display/session.py:189-348 | over every run of the session: the child it holds is the only process that was neither seen to exit nor sent the signal; it announces each start once and each exit it saw once, in order, and nothing for a process it stopped; while it holds a child the suppress flag is clear |
| SessionAccount.ExitsAreReported | relayinner_display/session.py:238-265 | in every reachable state the end of the child is reported with its code or signal and backend: the branch that suppresses the report is never taken |
| SessionSupervisor.SessionSupervisor.HandleDaemonMessage | relayinner_display/session.py:189-236 | each message of the daemon leaves the state and returns the events of the specification |
| SessionSupervisor.SessionSupervisor.LaunchConsole | relayinner_display/session.py:278-329 | a launch is refused and nothing stopped, or the old viewer is stopped and the new one started or its failure reported |
| SessionSupervisor.SessionSupervisor.ValidateConsoleRequest | relayinner_display/session.py:362-401 | a request is refused exactly when it is not for the configured backend or does not name that backend's program, by launcher and by command line |
| SessionSupervisor.SessionSupervisor.StopConsole | relayinner_display/session.py:331-348 | stopping leaves no child and no backend, and the flag set exactly when there was a child |
| SessionSupervisor.SessionSupervisor.PollConsole | relayinner_display/session.py:238-265 | an exit that is seen clears the child and is reported unless suppressed |
| SessionSupervisor.SessionSupervisor.ApplyDisplayPower | relayinner_display/session.py:403-448 | the power state is recorded and reported exactly when the helper did its work |
| AgreementTheorem.AgreementExactly | relayinner_display/daemon.py:498-611 | from agreement, an exchange that starts with a tick, a child exit, a connection, its loss in any of three ways or a new session process and runs to the end in any order of turns ends in agreement (running, pid and backend) if and only if it does not start with a blind tick: a console recorded and either presses that fill the failure window or a pairing UI whose host is unreachable |
| AgreementTheorem.RecordsAgree | relayinner_display/session.py:189-348 | over every run of such exchanges without a blind tick, both ends have the same record of the console |
| Reconciliation.RecordsExactly | relayinner_display/daemon.py:498-611 | after every run of such exchanges, blind ticks or not, the records agree if and only if they have not come apart or have come together again since (`InStep`); if not, the daemon believes in a viewer that the session does not have, or is blocked while the session keeps a viewer that was given up |
| Reconciliation.MendsExactly | relayinner_display/daemon.py:498-611 | once apart, an exchange that runs to the end brings the records together if and only if it starts with the guest read as off or the failure window filled (for a daemon that believes in a viewer), the end of the viewer (for a session that kept one), or the loss of the connection |
| Reconciliation.NoLaunchOutOfStep | relayinner_display/daemon.py:558-562 | in every run, from where the records have come apart until they agree again, no exchange has a launch request on its way, at any point of its turns |
| AgreementTheorem.PlainRecordsAgree | relayinner_display/daemon.py:636-652 | with SPICE, VNC or Looking Glass and the power button not forwarded, the records agree over every run |
| AgreementTheorem.LossExactly | relayinner_display/daemon.py:2229-2240 | when the daemon reads the end of the connection, whatever is still on its way, the records agree afterwards if and only if it does not read the start of a viewer with it, or reads something that it would answer |
| AgreementTheorem.UnsentReplyAgrees | relayinner_display/daemon.py:2234-2239 | when an answer cannot be sent, the records agree afterwards |
| AgreementTheorem.UnsentTickAgrees | relayinner_display/daemon.py:2247-2250 | when the messages of a tick cannot be sent, the records agree afterwards |
| AgreementTheorem.GreetingRestores | relayinner_display/daemon.py:378-384 | from every reachable state without a connection, the exchange that greets a new session ends in agreement, whatever went wrong before |
| BlindTicks.LateStartsBreakAgreement | relayinner_display/daemon.py:2229-2240 | there is a run (connect, launch, viewer started, connection lost before its report is read) that ends at rest with a running console recorded, no session and no viewer |
| AgreementTheorem.DisplayRecordsExactly | relayinner_display/session.py:439-448 | at rest, an exchange keeps the daemon's applied power equal to the session's record of its screen if and only if it is not the session's process being replaced while that record is off |
| AgreementTheorem.DisplayRecordsAgree | relayinner_display/session.py:439-448 | over every run of such exchanges, the daemon's applied power is the session's power state, blind ticks or not |
| ScreenPower.ScreenExactly | relayinner_display/daemon.py:378-391 | with a power helper that works, an exchange that runs to the end leaves a connected session's record of its screen in the state the daemon means it to be in if and only if it is not the connection of a session, with the other state on record, to a daemon that is degraded |
| ScreenPower.ScreenFollowsIntent | relayinner_display/daemon.py:2091-2150 | over every run of such exchanges, a connected session's record of its screen is the display intent |
| ScreenPower.SessionsCanGoUntold | relayinner_display/daemon.py:386-391 | there is a run of atomic exchanges (guest off for long enough with no session, button unreadable, session connects) in which every helper works and which ends at rest with a connected session whose record of its screen is on, while it is meant to be off |
| ScreenPower.TickOrders | relayinner_display/daemon.py:498-611 | the last power order among what a tick sends a ready session, or else the old intent, is the new intent, whatever else the tick sends |
| AgreementTheorem.TickTells | relayinner_display/daemon.py:498-611 | the messages of a tick always bring the session to the record that the daemon has or will have, except in a blind tick |
| AgreementTheorem.PressesAs | relayinner_display/daemon.py:654-663 | presses clear the daemon's record exactly when one of them fills the failure window, and then block it |
| Agreement.TurnsSettle | relayinner_display/daemon.py:420-496 | whichever side takes the next message, what is on its way still makes the two records agree, or still drives them apart |
| BlindTicks.PressesBreakAgreement | relayinner_display/daemon.py:655-663 | with SPICE and the button forwarded there is a run (connect, launch, five presses without a status) after which the records differ |
| BlindTicks.LostHostBreaksAgreement | relayinner_display/daemon.py:874-883 | with Moonlight there is a run (connect, pair launch, host lost) after which the records differ |
| ExchangeEnds.ExchangesAreBounded | relayinner_display/daemon.py:2229-2250 | no order of turns goes on for longer than the weight of the messages on their way |
| ExchangeEnds.ExchangesCanEnd | relayinner_display/session.py:519-529 | from every state there are turns that leave both queues empty, no more than that weight |
| Framing.SessionSocketServer.ReadMessages | relayinner_display/daemon.py:167-195 | one call returns the complete non-blank lines in order and keeps the unfinished tail, or drops it with the connection |
| Framing.SessionSocketClient.ReadMessages | relayinner_display/session.py:112-140 | the same on the session's side, where no connection counts as lost |
| Framing.TakeLines | relayinner_display/daemon.py:188-193 | the inner loop takes exactly the complete non-blank lines off the buffer and leaves the tail |
| Framing.ChunkingIndependence | relayinner_display/daemon.py:167-195 | however a byte stream is cut into calls, the messages are those of the whole stream and the buffer is its tail |
| Framing.FragmentedMessagesArrive | relayinner_display/ipc.py:80-83 | encoded messages sent in any fragments are read back, all of them, in order, with nothing left over |
| Protocol.ValidateMeans | relayinner_display/ipc.py:126-157 | a message passes exactly when its type is known, every required field is there and accepted, every optional field that is there is accepted and there are no others |
| ProtocolReading.DaemonMessagesArrive | relayinner_display/session.py:189-236 | the session reads out of a payload exactly the message that the daemon put into it |
| ProtocolReading.SessionMessagesArrive | relayinner_display/daemon.py:369-496 | the daemon reads out of a payload exactly the message that the session put into it |
| ProtocolClosure.DaemonMessagesPass | relayinner_display/ipc.py:48-77 | a message of the daemon passes the session's check exactly when its texts are not blank, its command line is not empty and its directory is absolute |
| ProtocolClosure.SessionMessagesPass | relayinner_display/ipc.py:59-70 | a message of the session passes the daemon's check exactly when its texts are not blank |
| ProtocolClosure.DaemonIsUnderstood | relayinner_display/daemon.py:1626-1642 | over every run with a parsed configuration and PINs that are not blank, the session lets every message of the daemon through and reads it as what it is |
| ProtocolClosure.SessionIsUnderstood | relayinner_display/session.py:189-348 | over every run of the session, the daemon lets every message of the session through and reads it as what it is |
| ProtocolClosure.StreamNonBlank | relayinner_display/config.py:184-196 | the stream command line of a parsed configuration has no blank argument |
| ProtocolClosure.LookingGlassNonBlank | relayinner_display/config.py:146-155 | nor has the Looking Glass one |
| ProtocolClosure.AuthorityNonBlank | relayinner_display/config.py:767-779 | the authority of a parsed host is not blank, with any port |
| WorkspaceProofs.RewriteRenames | relayinner_display/daemon.py:1250-1384 | for any line sequence, reading the rewritten lines gives the old reading with every paired record's host name, manual address and manual port set, its existing other addresses and ports emptied and everything else as it was |
| WorkspaceProofs.RewriteIsIdempotent | relayinner_display/daemon.py:1270-1361 | a second rewrite changes no line, whatever the file: duplicate keys, repeated headers, mixed case and separators included |
| WorkspaceProofs.NothingToRename | relayinner_display/daemon.py:1316-1352 | a file that already means what the rewrite wants is left alone line for line |
| WorkspaceProofs.RewriteFaithful | relayinner_display/daemon.py:1250-1384 | the lines the rewrite produces are classified again, from their text, as what they were meant to be |
| WorkspaceProofs.SurveyIsSound | relayinner_display/daemon.py:1270-1310 | the bookkeeping of the first pass (indexes, order, section ends) hangs together for every file |
| WorkspaceRewriter.RewriteSettings | relayinner_display/daemon.py:1250-1384 | the passes over the lines, with edits in place and insertions from the back, leave exactly the specified lines and report an update exactly when something changed |
| WorkspaceRewriter.SurveyLines | relayinner_display/daemon.py:1270-1310 | the first pass finds the section ends, the order of the records, the index of each entry and the paired records |
| WorkspaceRewriter.EditRecords | relayinner_display/daemon.py:1312-1348 | the second pass edits the fields of every paired record and collects what is missing, section by section |
| WorkspaceRewriter.InsertLines | relayinner_display/daemon.py:1353-1361 | inserting from the back puts every block at the end of its section as it stood before |
| SettingsFile.RewriteFile | relayinner_display/daemon.py:1250-1384 | what is written splits into exactly the rewritten lines again, and an unchanged file keeps its text |
| SettingsFile.RewriteFileTwice | relayinner_display/daemon.py:1224-1248 | a second run over the written file reports no update and leaves its text |
| SettingsFile.SplitJoined | relayinner_display/daemon.py:1368-1372 | joining lines and splitting the text gives the lines back |
| WorkspaceReaders.ReadHostRecords | relayinner_display/daemon.py:1046-1088 | the loop over the lines returns the stored hosts of the chosen section, sorted, each with the last value of each of its fields |
| WorkspaceReaders.ReadRootSettings | relayinner_display/daemon.py:1093-1127 | the other loop returns the last value of each setting outside the host lists |
| WorkspaceReaders.MatchRecord | relayinner_display/daemon.py:1386-1408 | a record matches by its host name, or by its first address that is the host if the port is absent or the same number |
| WorkspaceReaders.ServerCertificate | relayinner_display/daemon.py:1137-1167 | one pass returns the first certificate of a matching record, or, if any host will do and none matches, the first certificate of all |
| HostRecovery.ExactLookupAfterRewrite | relayinner_display/daemon.py:1137-1167 | for every file and host, the exact lookup after the rewrite returns the first certificate of the file with the default port and nothing with any other |
| HostRecovery.RecoveryIsPermanent | relayinner_display/daemon.py:1224-1248 | if no stored host matched before, the exact lookup after the rewrite returns what the any-host lookup returned before if and only if the port is the default one or there was no certificate |
| RecoveredFile.RecoverHost | relayinner_display/daemon.py:905-913 | on the text of the file, end to end: an any-host lookup, the rewrite, and the exact lookup in the written text; if no stored host matched before, the second finds what the first found if and only if the port is the default one or that was nothing |
| RecoveredFile.FindCertificate | relayinner_display/daemon.py:1137-1167 | one lookup in a file's text returns what reading its hosts and going through their certificates means |
| OtherPortRecovery.RecoveryCanFail | relayinner_display/daemon.py:1137-1167 | for every certificate, host and port other than the default one there is a settings file where the any-host lookup finds the certificate before and the exact lookup finds nothing after |
| ByteArrayDecoder.UnescapeText | relayinner_display/daemon.py:1178-1219 | the decoding loop ends, each round moving on by one, two or four characters, with what the escapes stand for |
| ByteArrayDecoder.DecodeByteArray | relayinner_display/daemon.py:1169-1222 | quotes, wrapper and escapes are taken off in the source's order, and nothing is returned for what decodes to nothing |
| ByteArrayDecoder.DecodeInverts | relayinner_display/daemon.py:1169-1222 | decoding gives back every non-empty text without white space at its ends, from each of its escaped forms |
| ByteArrayDecoder.DecodeInvertsQuoted | relayinner_display/daemon.py:1169-1176 | the same for a value in either kind of quotes |

## Left out

- Sockets, subprocesses, the file system, ownership and permissions, TLS, HTTP and XML to Sunshine, the CSV of the app list: foreign calls whose outcomes are inputs.
- The JSON encoder and decoder: payloads are modelled as decoded objects, and the framing theorem takes texts without newline bytes, as section 7 of RFC 8259 makes every encoded text; a line that does not decode is not modelled.
- Free queues between the processes: agreement is stated for exchanges that run to the end before the next one begins, with any order of turns inside one; across overlapping exchanges it does not hold.
- Failures of a preparation that the backend in question cannot have (`Composition.Possible`): only VNC has an endpoint to be unavailable, and Moonlight asks Proxmox for nothing.
- Uncaught exceptions that end a process: a message that its receiver's check refuses, a timeout in the Proxmox runner, a failed assertion. `ProtocolClosure` shows that the first does not happen between the two processes.
- A signal that cannot be delivered: `terminate` is taken not to raise, and waiting for the process and killing it are one step.
- SessionSupervisor.SessionSupervisor.ApplyDisplayPower: the helper either did all its work or not; finding the outputs and the loop over them are one outcome.
- The output itself: "the screen" in `ScreenPower` and `AgreementTheorem` is the session's own record of its power state, which follows the helper's reports of success and which a new session process starts as on, with nothing switched.
- A send that fails is taken to fail with the first message of its batch, and a viewer to end with the session process that started it.
- Persisting the runtime state to disk, and its text copies of times and of the session flag.
- The clock: it is taken not to go back, and the conversion of an elapsed time through floating-point seconds is done in whole numbers.
- Log output, and which subsystem an error is logged under.
- WorkspaceReaders.ReadHostRecords: reads one settings file; the merging of several in one workspace, in the order of their paths, is not modelled.
- WorkspaceReaders.ReadRootSettings: the same.
- Text beyond ASCII in case folding and in digits: the fold and the digit classes are those of ASCII.
- A host that the address parser sees as IPv6 is a given flag of the configuration.
- The validation of the configuration field by field: `Config.Parsed` states what it guarantees.
- `proxmox.py`, `input.py`, `bootstrap.py`, `kiosk.py` and `kiosk_launcher.py`: thin wrappers, templates and tables; only their outcomes matter here.
- DisplayDaemon.DisplayDaemon.Tick: the source writes the tick and the message handler as one method each; here parts of them are methods of their own, and values computed by a parser or a probe arrive with the call.
- ProtocolClosure.DaemonIsUnderstood: takes the PINs drawn to be non-blank, which is a property of the generator outside this model.
