# Overland: a verified model

Overland splits a VPN connection over an app actor, a root helper, a supervised process and a
Rust client whose log lines the app parses. This project models the seams between those pieces
in Dafny 4.11 and proves what they promise each other. `dafny verify dfyconfig.toml` checks it.

| file | models |
|---|---|
| `LineBuffer.dfy` | the byte-level line buffer and the splitting of a stream into lines |
| `TailProtocol.dfy` | the session directory shared by the root-side wrapper and the tailing app: appends, exit file, polls, crash, adoption |
| `ShellQuoting.dfy` | shell quoting inside AppleScript quoting, and the two readers it meets |
| `RequestGrammar.dfy`, `RequestValidator.dfy`, `RequestFaults.dfy` | the helper's argument grammar, its parser, and what a refusal means |
| `CommandBuilder.dfy`, `CommandMeaning.dfy`, `CommandArguments.dfy`, `AcceptedCommands.dfy` | the app's command: the request it means, what that says of the profile, the argument array, and which commands pass |
| `BridgeState.dfy`, `BridgeRuns.dfy`, `BridgeReplay.dfy`, `BridgeRaces.dfy`, `BridgeOutcomes.dfy` | the bridge actor: its handlers, whole runs of calls, queued handlers and ending tunnels, what replayed output leaves in the details, the two races among them, and where they end up |
| `TunnelManager.dfy`, `HelperAttach.dfy` | the helper's tunnel slot, and starting or re-attaching to a tunnel |
| `VpnTask.dfy`, `VpnShown.dfy` | the connect/disconnect handshake of gpservice, and what it shows meanwhile |
| `CookieToken.dfy`, `GatewayLog.dfy`, `SessionLog.dfy` | encoders against decoders: the gateway cookie token, gateway lines, session summary |
| `PortalGateways.dfy`, `AutoGateway.dfy`, `SessionRenewal.dfy`, `CscDigest.dfy` | Rust client logic: gateway preference, the auto-gateway loop, session renewal, the report digest |
| `Options.dfy`, `Decimal.dfy` | results and decimal numerals |

Concurrent parts are state machines: a world, the steps that may happen next, and lemmas about
every run `IsRun(worlds, steps)`. A step is a stretch of code between two suspensions or lock
waits. Objects updated in place are classes whose methods are proved equal to the functions the
state machines use, and to what the fields say of each other besides. External answers (files, hostnames, the clock, the network, OpenConnect,
MD5) are parameters or part of the input.

Several promises fail in a corner. Each of these has a lemma with the run or input that shows
it, and one that says exactly when:

- gateway discovery started while connected brings back a connection that has ended
  (`DiscoveryWhileConnectedRevivesTunnel`; `HonestIff`);
- a connect accepted during the helper lookup of an adoption leaves two tunnels, one without an
  owner (`LookupRaceLosesTunnel`; `LookupRaceIff`);
- a launch that finds no privileged runner leaves its details behind, and a late handler of an
  older tunnel then shows a connection (`FailedLaunchFakesConnection`; `ConnectedMeansTunnel`,
  `FakedIff`);
- a status of a sign-in or discovery that is delivered after it ended leaves the bridge
  connecting with nothing running, refusing every connect until someone disconnects
  (`LateStatusStrands`, `StrandedUntilDisconnect`; `IdleIsSettledIff`);
- output handlers are unordered tasks, and a gateway selection that is handled after the
  connection leaves the bridge connecting (`DeliveryOrderDecides`);
- a HIP script path that spells a flag is accepted by the helper as that flag
  (`DashedHipScriptIsReadAsFlag`; `HipDerivedIff`);
- attaching with a status reply that cannot be decoded throws and leaves the runner running
  (`UnreadableStatusLeaks`; `ThrowingWhileTunnelIsUp`);
- the manager's stored task can be one that has finished (`StoredTaskMayBeStale`;
  `StoredTaskIsLiveIff`);
- an app that goes after the exit file appeared and before its tail returned has lost the
  session's output and status for good (`GoneAfterExitIsFinal`; before that
  `GoneThenAdoptDeliversEverything`);
- in gpservice, the clean-up of an old VPN thread can discard the VPN of the next connect
  (`CleanupCanDropNextVpn`; `ThreadFindsItsVpn`, and for a caller that waits for `disconnect`
  never: `WaitingConnectsRun`);
- and a `disconnect` refused before a connect can publish after it, so that a running VPN shows as
  disconnected (`LateRefusalHidesVpn`; `RunningShowsConnected`);
- renewal counts the new lifetime from the answer, not from when the gateway handled it, and a
  slow answer can let the session lapse (`SlowAnswerLapses`; `LapsesIff`);
- two gateways of one name can put the wrong one in front (`SameNameMisleads`;
  `FrontIsPreferredIff`);
- an address that itself ends in ` (` and a proper address is read back as that one
  (`AddressCanMislead`; `MisreadIff`);
- the report digest drops leading zeros, so two hashes can print alike (`DigestIsAmbiguous`;
  `DeterminedIff`);
- an interrupt answered with an unexpected exit code moves auto-gateway on to the next gateway,
  and a PID file that cannot be removed counts as a failure after the tunnel
  (`InterruptCanMoveOn`; `TryGateways`).

## Model

| member | source | states |
|---|---|---|
| `Lines.SplitIsSplit` | OverlandApp/Sources/OverlandCore/Service/ProcessRunner.swift:29-51 | The lines and the rest hold no newline and, rejoined, give the stream back |
| `Lines.SplitIsUnique` | OverlandApp/Sources/OverlandCore/Service/ProcessRunner.swift:29-51 | There is only one such cut of a stream, so the two clauses above define the lines |
| `Lines.SplitAppend` | OverlandApp/Sources/OverlandCore/Service/ProcessRunner.swift:29-42 | Splitting can be resumed from the unfinished rest: where a chunk ends does not matter |
| `LineBuffers.LineBuffer.Append` | OverlandApp/Sources/OverlandCore/Service/ProcessRunner.swift:29-42 | The lines completed by the new data; `pending` is the newline-free rest, `all` grows by the data |
| `LineBuffers.LineBuffer.Flush` | OverlandApp/Sources/OverlandCore/Service/ProcessRunner.swift:44-51 | A last line exactly when something is pending; nothing is pending afterwards |
| `LineBuffers.StreamLines` | OverlandApp/Sources/OverlandCore/Service/ProcessRunner.swift:108-141 | For every chunking, appends plus the final flush give the newline split of the whole stream |
| `TailProtocol.StepKeepsInv` | OverlandApp/Sources/OverlandCore/Service/PrivilegedProcessRunner.swift:326-357 | Every step of writer or reader keeps: delivered lines and pending bytes are the split of the log up to the offset |
| `TailProtocol.TailDeliversTheWholeLog` | OverlandApp/Sources/OverlandCore/Service/PrivilegedProcessRunner.swift:326-357 | In every interleaving of appends, exit file, polls, crash, cancel and adoption, a tail that returned delivered exactly the lines of the log, read to its end and reports the published status |
| `TailProtocol.LogIsFinal` | OverlandApp/Sources/OverlandCore/Service/PrivilegedProcessRunner.swift:97-101 | After the exit status nothing in the log changes, so the log above is the final one |
| `TailProtocol.TailReturnsOnceExited` | OverlandApp/Sources/OverlandCore/Service/PrivilegedProcessRunner.swift:326-357 | Once the exit file exists the tail returns after a known number of its own steps, with exactly one more read pass from the moment it looks |
| `TailProtocol.GoneThenAdoptDeliversEverything` | OverlandApp/Sources/OverlandCore/Service/PrivilegedProcessRunner.swift:302-324 | A crash or a cancellation at any moment with the command alive, then adoption, delivers the log from its first byte |
| `TailProtocol.GoneAfterExitIsFinal` | OverlandApp/Sources/OverlandCore/Service/PrivilegedProcessRunner.swift:151-166 | Once the exit status is published, an app that goes before its tail returned is never followed by another tail, in any run |
| `TailProtocol.CancelRemovesExactlyWhenExited` | OverlandApp/Sources/OverlandCore/Service/PrivilegedProcessRunner.swift:314-324 | The step behind both: a cancelled poll removes the session exactly when the exit status was published |
| `LogTail.Drain` | OverlandApp/Sources/OverlandCore/Service/PrivilegedProcessRunner.swift:333-343 | One read pass delivers exactly the lines the new bytes complete |
| `LogTail.Tail` | OverlandApp/Sources/OverlandCore/Service/PrivilegedProcessRunner.swift:326-357 | The tail loop, against every history of the directory and every timing of its polls, delivers the lines of the final log and its exit status |
| `ShellQuoting.TwoPassesAreOne` | OverlandApp/Sources/OverlandCore/Service/PrivilegedProcessRunner.swift:15-17 | The two AppleScript replacement passes equal one-pass escaping of each character |
| `ShellQuoting.LiteralRoundTrip` | OverlandApp/Sources/OverlandCore/Service/PrivilegedProcessRunner.swift:15-17 | An escaped text reads back as itself and ends at its own closing quote |
| `ShellQuoting.QuotedBody` | OverlandApp/Sources/OverlandCore/Service/PrivilegedProcessRunner.swift:6-8 | Inside an open quote a quoted word adds exactly that word, apostrophes included |
| `ShellQuoting.CommandRoundTrip` | OverlandApp/Sources/OverlandCore/Service/PrivilegedProcessRunner.swift:10-12 | Shell word splitting of a quoted command gives back every word list, empty words included |
| `ShellQuoting.ScriptRoundTrip` | OverlandApp/Sources/OverlandCore/Service/PrivilegedProcessRunner.swift:260-267 | Reading the AppleScript literal and then splitting by shell rules gives the original words and prompt |
| `ShellQuoting.LaunchText` | OverlandApp/Sources/OverlandCore/Service/PrivilegedProcessRunner.swift:248-267 | The script is one `do shell script` command with a prompt and administrator privileges, and what the shell runs is, in order, `/bin/bash`, the wrapper, the session, the exec helper or `-`, the executable and its arguments |
| `ShellQuoting.LaunchIsInjective` | OverlandApp/Sources/OverlandCore/Service/PrivilegedProcessRunner.swift:260-267 | Equal scripts mean the same session, executable and arguments; only a missing helper and the helper `-` look alike |
| `RequestGrammar.WordsAreUnambiguous` | OverlandApp/Sources/OverlandCore/Service/HelperRequestValidator.swift:89-131 | An argument vector spells at most one request, although the value of `--hip` is optional |
| `RequestValidator.ParseIsSound` | OverlandApp/Sources/OverlandCore/Service/HelperRequestValidator.swift:89-182 | What is accepted is a well-formed request, and its words are exactly the input |
| `RequestValidator.ParseIsComplete` | OverlandApp/Sources/OverlandCore/Service/HelperRequestValidator.swift:89-182 | Every well-formed request is accepted and read as itself |
| `RequestValidator.AcceptedIffDerived` | OverlandApp/Sources/OverlandCore/Service/HelperRequestValidator.swift:89-182 | Accepted if and only if the grammar derives the argument vector |
| `RequestValidator.ApprovedIffDerived` | OverlandApp/Sources/OverlandCore/Service/HelperRequestValidator.swift:89-131 | Approved exactly when the executable is the sealed one and the arguments are derived; returned unchanged; approving again changes nothing |
| `RequestValidator.ConsumeFlag` | OverlandApp/Sources/OverlandCore/Service/HelperRequestValidator.swift:133-182 | One flag with its value: the rejection met first, or the index past it, the seen set and the output extended by its words |
| `RequestValidator.ConsumeFlags` | OverlandApp/Sources/OverlandCore/Service/HelperRequestValidator.swift:97-126 | Either flag loop, ending by a strictly growing index: the flags read, the words left over, the first fault |
| `RequestValidator.ValidateSubcommand` | OverlandApp/Sources/OverlandCore/Service/HelperRequestValidator.swift:102-128 | The subcommand branch: each malformed shape and its error, or the approved words |
| `RequestValidator.Validate` | OverlandApp/Sources/OverlandCore/Service/HelperRequestValidator.swift:89-131 | The whole validation gives the verdict, with the first fault reported |
| `RequestFaults.RefusalNamesFault` | OverlandApp/Sources/OverlandCore/Service/HelperRequestValidator.swift:89-182 | Every refusal names a fault that is there: another executable, global flags with no subcommand after them, or the word that is unknown, repeated, without its value, or whose value the flag does not take, file faults told apart |
| `RequestValidator.FileCheck` | OverlandApp/Sources/OverlandCore/Service/HelperRequestValidator.swift:152-177 | A file passes exactly when it is regular and belongs to the caller |
| `RequestValidator.ValueCheck` | OverlandApp/Sources/OverlandCore/Service/HelperRequestValidator.swift:164-180 | A flag value passes exactly when the grammar allows it |
| `Decimal.ParsePrinted` | OverlandApp/Sources/OverlandCore/Service/HelperRequestValidator.swift:171-172 | A printed number is read back, and refused exactly when it does not fit in 32 bits |
| `CommandBuilder.RequestIsDistinct` | OverlandApp/Sources/OverlandCore/Service/GpclientCommand.swift:186-222 | No tunnel command carries a flag twice |
| `CommandBuilder.WellFormedIffAdmissible` | OverlandApp/Sources/OverlandCore/Service/HelperRequestValidator.swift:142-180 | With no value that looks like a flag, the built request is in the grammar exactly when the profile meets the policy |
| `CommandBuilder.BuiltCommandIsAcceptedIffAdmissible` | OverlandApp/Sources/OverlandCore/Service/GpclientCommand.swift:186-222 | With no value that looks like a flag, the helper accepts the built arguments unchanged if and only if the profile meets its policy |
| `AcceptedCommands.BuiltCommandIsAcceptedIff` | OverlandApp/Sources/OverlandCore/Service/GpclientCommand.swift:186-222 | For every profile: the helper accepts the built arguments unchanged if and only if the profile is acceptable, a condition on its fields alone |
| `AcceptedCommands.HipDerivedIff` | OverlandApp/Sources/OverlandCore/Service/HelperRequestValidator.swift:148-157 | A HIP script path that looks like a flag passes exactly when it is a known flag without value that is given nowhere else, and the rest meets the policy |
| `AcceptedCommands.DashedIsRefused` | OverlandApp/Sources/OverlandCore/Service/HelperRequestValidator.swift:116-160 | With a dashed value anywhere but after `--hip` no request is derived |
| `AcceptedCommands.DashedWordIsFlag` | OverlandApp/Sources/OverlandCore/Service/HelperRequestValidator.swift:142-162 | In any accepted run of flags a dashed word is a flag, and a plain value follows it when it takes one |
| `CommandBuilder.DashedHipScriptIsReadAsFlag` | OverlandApp/Sources/OverlandCore/Service/GpclientCommand.swift:186-222 | A HIP script path spelling a flag gives the very arguments of a profile with that option |
| `CommandBuilder.ArgumentsHideSecrets` | OverlandApp/Sources/OverlandCore/Service/GpclientCommand.swift:117-137 | The arguments do not depend on the password or the sign-in result |
| `CommandMeaning.RequestSaysProfile` | OverlandApp/Sources/OverlandCore/Service/GpclientCommand.swift:84-222 | For every profile and sign-in, each of the eighteen flags is in the request exactly when the fields of the profile call for it, with that value and no other: switches by their field, texts unless missing or empty, numbers when positive as the numeral of that number, the timeout only off 300; and no other flag is |
| `CommandMeaning.TableIsTheBuilders` | OverlandApp/Sources/OverlandCore/Service/GpclientCommand.swift:58-80 | The flags the helper allows are those the builder can emit and no other, the global ones among them likewise |
| `CommandArguments.TunnelCommand` | OverlandApp/Sources/OverlandCore/Service/GpclientCommand.swift:186-222 | The arguments are the words of a request that says exactly what profile and sign-in say, with `connect` and the portal right after the global words; the sign-in result, or the password of a credentials login, is the only line on standard input |
| `CommandArguments.GlobalFlags` | OverlandApp/Sources/OverlandCore/Service/GpclientCommand.swift:87-92 | The JSON log format, then each global switch exactly when its field is set |
| `CommandArguments.CredentialFlags` | OverlandApp/Sources/OverlandCore/Service/GpclientCommand.swift:117-137 | User and password flags by sign-in method; a password line for standard input exactly for a credentials login with a password that is not empty |
| `CommandArguments.CertificateFlags` | OverlandApp/Sources/OverlandCore/Service/GpclientCommand.swift:94-103 | Certificate and key flags when their paths are not empty |
| `CommandArguments.ScriptFlags` | OverlandApp/Sources/OverlandCore/Service/GpclientCommand.swift:202-212 | Script and HIP flags, HIP with or without its optional value |
| `CommandArguments.NetworkFlags` | OverlandApp/Sources/OverlandCore/Service/GpclientCommand.swift:213-219 | The network flags; numbers only when positive, the timeout only off its default |
| `CommandArguments.LoginFlags` | OverlandApp/Sources/OverlandCore/Service/GpclientCommand.swift:191-199 | The sign-in result on standard input, or the credentials |
| `BridgeService.GpclientBridgeService.Connect` | OverlandApp/Sources/OverlandCore/Service/GpclientBridgeService.swift:287-353 | A connect up to its first suspension: whether it is accepted and the whole new state |
| `BridgeService.GpclientBridgeService.ConnectResumed` | OverlandApp/Sources/OverlandCore/Service/GpclientBridgeService.swift:300-352 | A connect resumed by the browser step: cancelled, failed or launching |
| `BridgeService.GpclientBridgeService.StartTunnel` | OverlandApp/Sources/OverlandCore/Service/GpclientBridgeService.swift:357-384 | The launch: details, runner fallback, and the state when no runner is usable |
| `BridgeService.GpclientBridgeService.AdoptOrphanedSession` | OverlandApp/Sources/OverlandCore/Service/GpclientBridgeService.swift:388-420 | Adoption from an idle actor only, with the details and state it sets |
| `BridgeService.GpclientBridgeService.HandleGatewaySelected` | OverlandApp/Sources/OverlandCore/Service/GpclientBridgeService.swift:489-496 | The handler writes name and server and shows connecting, or does nothing without details |
| `BridgeService.GpclientBridgeService.HandleTunnelConnected` | OverlandApp/Sources/OverlandCore/Service/GpclientBridgeService.swift:498-511 | With details: interface name and address are those of the interface found, the time is now, an unknown expiry is counted from now when a lifetime is known, and connected is shown; without details nothing |
| `BridgeService.GpclientBridgeService.HandleSessionInfo` | OverlandApp/Sources/OverlandCore/Service/GpclientBridgeService.swift:513-528 | The handler records lifetime, expiry and permission; what is shown changes only while connected |
| `BridgeService.GpclientBridgeService.HandleSessionExtended` | OverlandApp/Sources/OverlandCore/Service/GpclientBridgeService.swift:530-538 | The handler moves the expiry by the known lifetime |
| `BridgeService.GpclientBridgeService.FinishTunnel` | OverlandApp/Sources/OverlandCore/Service/GpclientBridgeService.swift:540-568 | The end of a tunnel: empty slot and details, and the state by request, denial and exit code |
| `BridgeService.GpclientBridgeService.Disconnect` | OverlandApp/Sources/OverlandCore/Service/GpclientBridgeService.swift:572-602 | Disconnect by phase: signing in, tunnel supervised, or nothing running |
| `BridgeService.GpclientBridgeService.DiscoverGateways` | OverlandApp/Sources/OverlandCore/Service/GpclientBridgeService.swift:254-271 | Discovery up to its first suspension, and the state it will restore |
| `BridgeService.GpclientBridgeService.DiscoveryResumed` | OverlandApp/Sources/OverlandCore/Service/GpclientBridgeService.swift:256-284 | Discovery resumed: the next phase, or the saved state restored |
| `BridgeRuns.StepKeepsInv` | OverlandApp/Sources/OverlandCore/Service/GpclientBridgeService.swift:287-568 | Every call, resumption, handler and tunnel end keeps the invariant of the actor and what surrounds it |
| `BridgeRuns.OneTunnelAndHonestState` | OverlandApp/Sources/OverlandCore/Service/GpclientBridgeService.swift:430-568 | On every disciplined run a supervised tunnel shows as connecting, connected or disconnecting, connected shows the active details, one tunnel at most lives and it is the one in the slot, and supervision starts from an empty slot |
| `BridgeRuns.DisconnectAlwaysSettles` | OverlandApp/Sources/OverlandCore/Service/GpclientBridgeService.swift:540-602 | Once disconnect is called with a tunnel supervised, its end settles on disconnected, whatever its exit code and whatever was queued |
| `BridgeRuns.LateHandlersAreInert` | OverlandApp/Sources/OverlandCore/Service/GpclientBridgeService.swift:489-568 | A tunnel handler delivered after the end changes nothing until the next accepted connect or adoption |
| `BridgeRuns.LeftoverStep` | OverlandApp/Sources/OverlandCore/Service/GpclientBridgeService.swift:318-383 | A step leaves details with an empty slot exactly when it is a launch that finds no runner, or they were there and it is no accepted connect or adoption |
| `BridgeRuns.ConnectedMeansTunnel` | OverlandApp/Sources/OverlandCore/Service/GpclientBridgeService.swift:357-383 | On every disciplined run a shown connection is backed by the one live tunnel exactly when the last accepted connect or adoption did not fail to launch |
| `BridgeRuns.FakedIff` | OverlandApp/Sources/OverlandCore/Service/GpclientBridgeService.swift:498-511 | A connection without a tunnel is first shown exactly by a connection handler that runs after such a failed launch |
| `BridgeRuns.FailedLaunchFakesConnection` | OverlandApp/Sources/OverlandCore/Service/GpclientBridgeService.swift:357-383 | A run in which that happens |
| `BridgeRuns.DiscoveryWhileConnectedRevivesTunnel` | OverlandApp/Sources/OverlandCore/Service/GpclientBridgeService.swift:254-284 | A run in which discovery while connected restores a state that no longer holds |
| `BridgeRaces.EndDiscoveryIff` | OverlandApp/Sources/OverlandCore/Service/GpclientBridgeService.swift:259-261 | The end of a discovery keeps what is shown honest exactly when something is connected, nothing was when it began, or the details are still the active ones |
| `BridgeRaces.HonestIff` | OverlandApp/Sources/OverlandCore/Service/GpclientBridgeService.swift:254-568 | On every run whatever, connected has always shown the active details exactly when no discovery restored stale ones |
| `BridgeRaces.LookupRaceIff` | OverlandApp/Sources/OverlandCore/Service/GpclientBridgeService.swift:388-407 | A lookup that finds a session leaves one live tunnel exactly when none was started since the call or the last started has ended, and a sound bridge exactly when, besides, no sign-in or discovery is under way |
| `BridgeRuns.LookupRaceLosesTunnel` | OverlandApp/Sources/OverlandCore/Service/GpclientBridgeService.swift:388-407 | A run in which a connect during the lookup leaves two live tunnels and one slot |
| `BridgeRuns.DeliveryOrderDecides` | OverlandApp/Sources/OverlandCore/Service/GpclientBridgeService.swift:430-511 | For every sequence of queued handlers, each at its own instant and in any state: connected at the end exactly when the tunnel came up with no gateway selection handled after it; else the last selection shows, or nothing changes |
| `BridgeRuns.ReplayRecoversDetails` | OverlandApp/Sources/OverlandCore/Service/GpclientBridgeService.swift:489-538 | Replayed output restores gateway and permission to the last reported, and leaves portal and cipher alone |
| `BridgeRuns.ReplayRecoversExpiry` | OverlandApp/Sources/OverlandCore/Service/GpclientBridgeService.swift:513-528 | Without an extension the expiry is the one last reported, counted from the instant that report was handled |
| `BridgeReplay.ReplayRecoversConnection` | OverlandApp/Sources/OverlandCore/Service/GpclientBridgeService.swift:498-528 | For every sequence of handlers: interface and address are those of the last interface reported, the connection time is the instant of the last report that the tunnel came up, the lifetime is the last reported, and a connection is shown with the current details |
| `BridgeReplay.LastSetterDecidesExpiry` | OverlandApp/Sources/OverlandCore/Service/GpclientBridgeService.swift:513-538 | The expiry is what the last of these says: a report with an expiry, a report with a lifetime counted from when it was handled, an extension counted by the lifetime known then |
| `BridgeReplay.FirstUpDecidesExpiry` | OverlandApp/Sources/OverlandCore/Service/GpclientBridgeService.swift:498-511 | With none of these and no expiry at first, a known lifetime is counted from the first report that the tunnel came up |
| `BridgeReplay.ExpiryStands` | OverlandApp/Sources/OverlandCore/Service/GpclientBridgeService.swift:489-538 | With none of these an expiry stands, and none appears without a known lifetime or without a tunnel that came up |
| `BridgeOutcomes.DropIsReported` | OverlandApp/Sources/OverlandCore/Service/GpclientBridgeService.swift:540-568 | With no disconnect asked for, the end of a tunnel shows a failure exactly when it was denied or its exit code is not 0, with the error it reported |
| `BridgeOutcomes.DiscoveryRestores` | OverlandApp/Sources/OverlandCore/Service/GpclientBridgeService.swift:254-284 | The end of a discovery brings back the state it began in exactly when nothing shows as connected by then, and nothing does unless the last accepted connect or adoption had failed to launch |
| `BridgeOutcomes.IdleIsSettledIff` | OverlandApp/Sources/OverlandCore/Service/GpclientBridgeService.swift:189-231 | On every disciplined run an idle bridge has shown disconnected or failed all along, and no sign-in or discovery shown connected, exactly when no status arrived late and no handler of an older tunnel met a failed launch |
| `BridgeOutcomes.StrandedUntilDisconnect` | OverlandApp/Sources/OverlandCore/Service/GpclientBridgeService.swift:198-231 | A status delivered after its sign-in or discovery ended leaves an idle bridge connecting through any run, until someone disconnects |
| `BridgeOutcomes.LateStatusStrands` | OverlandApp/Sources/OverlandCore/Service/GpclientBridgeService.swift:198-231 | Such a run |
| `HelperTunnel.TunnelManager.Start` | OverlandApp/Sources/OverlandHelperShared/TunnelManager.swift:78-117 | A start with nobody in between: refused unchanged, or running with its runner, task and arguments and an empty history |
| `HelperTunnel.TunnelManager.AddObserver` | OverlandApp/Sources/OverlandHelperShared/TunnelManager.swift:62-66 | The observer joins, and nothing else changes |
| `HelperTunnel.TunnelManager.RemoveObserver` | OverlandApp/Sources/OverlandHelperShared/TunnelManager.swift:68-70 | The observer leaves, and nothing else changes |
| `HelperTunnel.TunnelManager.Admit` | OverlandApp/Sources/OverlandHelperShared/TunnelManager.swift:78-94 | A start is admitted only when nothing runs, and clears history and exit code |
| `HelperTunnel.TunnelManager.Record` | OverlandApp/Sources/OverlandHelperShared/TunnelManager.swift:148-157 | The line joins the bounded history; the observers to call are those present |
| `HelperTunnel.TunnelManager.Finish` | OverlandApp/Sources/OverlandHelperShared/TunnelManager.swift:159-169 | The slot is emptied, the code kept; the observers to call are those present |
| `HelperTunnel.TunnelManager.Status` | OverlandApp/Sources/OverlandHelperShared/TunnelManager.swift:133-144 | The snapshot holds running, arguments, history and exit code as they are |
| `ManagerRuns.OneRunAndBoundedHistory` | OverlandApp/Sources/OverlandHelperShared/TunnelManager.swift:78-169 | Under every interleaving one run at most is in flight, a set runner is its and implies running, and the history is the last min(n, limit) lines since the last admitted start |
| `ManagerRuns.StatusFollowsRun` | OverlandApp/Sources/OverlandHelperShared/TunnelManager.swift:78-169 | Under every interleaving the status names the arguments of the last admitted start and the last min(n, limit) lines recorded since, by position; running without exit code until that run finishes, then over with its code |
| `ManagerRuns.StoredTaskIsLiveIff` | OverlandApp/Sources/OverlandHelperShared/TunnelManager.swift:98-116 | Under every interleaving the stored task has been the one in flight all along exactly when no start stored its task after that task had finished |
| `ManagerRuns.StoredTaskMayBeStale` | OverlandApp/Sources/OverlandHelperShared/TunnelManager.swift:103-116 | A run in which it did, and nothing runs |
| `HelperRunner.HelperProcessRunner.Begin` | OverlandApp/Sources/Overland/Service/HelperProcessRunner.swift:186-194 | Handlers and flags set before anything can produce output |
| `HelperRunner.HelperProcessRunner.Finish` | OverlandApp/Sources/Overland/Service/HelperProcessRunner.swift:134-144 | Settles once: resumes a stored continuation or keeps the result; nothing when not running |
| `HelperRunner.HelperProcessRunner.AwaitExit` | OverlandApp/Sources/Overland/Service/HelperProcessRunner.swift:146-152 | The pending result is taken, or the continuation stored |
| `HelperRunner.HelperProcessRunner.TakeExitHandler` | OverlandApp/Sources/Overland/Service/HelperProcessRunner.swift:38-45 | The exit handler is taken, so it runs once |
| `HelperRunner.HelperProcessRunner.Abandon` | OverlandApp/Sources/Overland/Service/HelperProcessRunner.swift:214-219 | A refused attach clears flag and handlers |
| `AttachRuns.StepKeepsInv` | OverlandApp/Sources/Overland/Service/HelperProcessRunner.swift:134-226 | Every step of helper, connection and app, starting or attaching, keeps the invariants of runner, reply, exit and lines |
| `AttachRuns.SettledAtMostOnce` | OverlandApp/Sources/Overland/Service/HelperProcessRunner.swift:134-152 | `run` gets a result at most once, a continuation is stored only while it waits, and the result is the exit code, or -1 on a connection that was lost |
| `AttachRuns.NoGap` | OverlandApp/Sources/Overland/Service/HelperProcessRunner.swift:183-226 | When `run` returns on a connection that held, every line from the start of the replayed history on has reached `onLine`, in either mode |
| `AttachRuns.StartDeliversAll` | OverlandApp/Sources/Overland/Service/HelperProcessRunner.swift:196-212 | A start that returns has delivered every line of its tunnel; one that fails or is refused releases the runner and its handlers |
| `AttachRuns.NothingHeldBack` | OverlandApp/Sources/Overland/Service/HelperProcessRunner.swift:183-226 | While the tunnel stays up, once nothing is under way every line from the start of the replayed history on has reached `onLine` |
| `AttachRuns.AttachDeliversHistory` | OverlandApp/Sources/OverlandHelperShared/TunnelManager.swift:133-144 | With the status answered at step j: when `run` returns on a connection that held, or waits with nothing under way, the last min(n, limit) lines recorded by then and every line recorded since have reached the app |
| `AttachRuns.AttachDeliversNoMore` | OverlandApp/Sources/Overland/Service/HelperProcessRunner.swift:196-226 | And no other line has: each delivered one was among those, or was recorded after the app connected |
| `AttachRuns.AnswerDecidesAttach` | OverlandApp/Sources/Overland/Service/HelperProcessRunner.swift:165-222 | An attach throws exactly when the status could not be decoded or no tunnel ran when it was answered |
| `AttachRuns.InternalStepsRunOut` | OverlandApp/Sources/Overland/Service/HelperProcessRunner.swift:183-226 | The steps the programs take by themselves cannot go on for ever |
| `AttachRuns.QuietIffNothingEnabled` | OverlandApp/Sources/Overland/Service/HelperProcessRunner.swift:183-226 | Quiet worlds are exactly those in which none of those steps is left |
| `AttachRuns.AttachEnds` | OverlandApp/Sources/Overland/Service/HelperProcessRunner.swift:134-226 | After the exit or a lost connection, once nothing is left to do, `run` is over; if the snapshot said running, with the exit code, whether the exit came before or after `awaitExit` |
| `AttachRuns.ThrowingWhileTunnelIsUp` | OverlandApp/Sources/Overland/Service/HelperProcessRunner.swift:214-219 | With the tunnel up and the connection held, `run` throws exactly when the reply is unreadable, and the runner still claims to run |
| `AttachRuns.UnreadableStatusLeaks` | OverlandApp/Sources/Overland/Service/HelperProcessRunner.swift:165-172 | Such a run, with nothing left to do |
| `VpnContext.VpnTaskContext.Connect` | apps/gpservice/src/vpn_task.rs:31-79 | With nobody in between: ignored or failing to build with nothing changed, or launched with handle, state and receiver set |
| `VpnContext.VpnTaskContext.RunThread` | apps/gpservice/src/vpn_task.rs:83-108 | With nobody in between the thread leaves Disconnected and an empty handle slot |
| `VpnContext.VpnTaskContext.Disconnect` | apps/gpservice/src/vpn_task.rs:112-130 | Up to its wait: the receiver taken and Disconnecting shown when there is a VPN, or the refusal |
| `VpnContext.VpnTaskContext.UndisturbedSession` | apps/gpservice/src/vpn_task.rs:31-130 | A session nobody disturbs waits on its own receiver and leaves the context as it began |
| `VpnContext.VpnTaskContext.TakeReceiver` | apps/gpservice/src/vpn_task.rs:112-113 | The receiver moves out of its slot to the caller |
| `VpnContext.VpnTaskContext.BeginCancel` | apps/gpservice/src/vpn_task.rs:115-119 | The VPN to cancel, and Disconnecting published when there is one |
| `VpnContext.VpnTaskContext.SaveHandle` | apps/gpservice/src/vpn_task.rs:73-74 | The new VPN replaces whatever the slot held |
| `VpnContext.VpnTaskContext.SaveReceiver` | apps/gpservice/src/vpn_task.rs:78-79 | The new receiver replaces whatever the slot held |
| `VpnContext.VpnTaskContext.RemoveHandle` | apps/gpservice/src/vpn_task.rs:105-106 | The slot is emptied, whoever filled it |
| `VpnContext.VpnTaskContext.RefuseDisconnect` | apps/gpservice/src/vpn_task.rs:125-128 | With no receiver, Disconnected is published |
| `VpnTask.StepKeepsInv` | apps/gpservice/src/vpn_task.rs:31-130 | Every step keeps: a receiver is in one place at most, belongs to a spawned connect, and one call holds the guard |
| `VpnTask.PairsAreDistinct` | apps/gpservice/src/vpn_task.rs:112-130 | No two calls that return true share a connect |
| `VpnTask.DisconnectFollowsConnect` | apps/gpservice/src/vpn_task.rs:78-130 | A call that returns true took the receiver an earlier connect had installed |
| `VpnTask.DisconnectFollowsCleanup` | apps/gpservice/src/vpn_task.rs:83-124 | It returns only after that thread published Disconnected, then emptied the handle slot, then signalled |
| `VpnTask.ThreadFindsItsVpn` | apps/gpservice/src/vpn_task.rs:73-106 | A thread runs the VPN of its own connect exactly when nothing wrote the slot in between |
| `VpnTask.WaitingConnectsRun` | apps/gpservice/src/vpn_task.rs:112-130 | A caller that waits for `disconnect` to return true for every accepted connect loses no connection: every thread runs the VPN of its own connect |
| `VpnTask.SerialConnectsRun` | apps/gpservice/src/vpn_task.rs:31-110 | The same from the threads' side: when every earlier one has emptied the slot |
| `VpnTask.CleanupCanDropNextVpn` | apps/gpservice/src/vpn_task.rs:103-106 | Waiting for the published state alone is not enough: a run in which the next VPN is discarded |
| `VpnShown.RunningShowsConnected` | apps/gpservice/src/vpn_task.rs:86-110 | When each connect waits for the one before: from its last report on, a VPN whose thread has not left shows as connected exactly as long as no `disconnect` publishes |
| `VpnShown.StartingShowsConnecting` | apps/gpservice/src/vpn_task.rs:73-110 | And from its announcement to its first report it shows as connecting exactly as long as none does |
| `VpnShown.LateRefusalHidesVpn` | apps/gpservice/src/vpn_task.rs:112-130 | Such a `disconnect` need not have found anything to stop: a run in which one refused before the connect publishes late, and the running VPN shows as disconnected |
| `CookieToken.DecodeEncoded` | crates/gpapi/src/gateway/login.rs:160-164 | Percent-encoding a value and form-decoding it gives the value back |
| `CookieToken.PairsReadBack` | crates/gpapi/src/gateway/login.rs:160-164 | The form reader undoes the printer pair by pair |
| `CookieToken.TokenRoundTrip` | crates/gpapi/src/gateway/login.rs:139-206 | Read as a form the token says, key by key: `authcookie`, `persistent-cookie`, `portal`, `user`, `domain`, `preferred-ip` and `preferred-ipv6` are arguments 1, 2, 3, 4, 7, 15 and 18, each decoded, and absent when not kept; `computer` is the computer; and there is no other key |
| `CookieToken.KeptMeans` | crates/gpapi/src/gateway/login.rs:183-206 | An argument is kept as its decoded text exactly when it is there, decodable, and not empty, `(null)` or `-1` |
| `CookieToken.OthersAreEscaped` | crates/gpapi/src/gateway/login.rs:160-164 | A byte that percent-encoding does not leave alone becomes a percent sign and the two upper-case hex digits of its value |
| `CookieToken.TokenIsMadeIff` | crates/gpapi/src/gateway/login.rs:139-206 | A token is made exactly when both required arguments are present and nothing is undecodable |
| `CookieToken.TokenError` | crates/gpapi/src/gateway/login.rs:139-206 | A refusal names the first fault in the order of the form: a required argument that is missing, by its key, or an undecodable one |
| `CookieToken.BuildExtendSessionForm` | crates/gpapi/src/gateway/session.rs:142-150 | Four keys are set in the parsed cookie and every other one kept |
| `CookieToken.ExtensionKeepsLogin` | crates/gpapi/src/gateway/session.rs:138-150 | From login to renewal: each key of the token but `portal` still says what login kept, and `portal`, `timestamp`, `message` and `comment` are as given |
| `GatewayLog.InventoryMatchIsUnique` | OverlandApp/Sources/OverlandCore/Service/GpclientOutputParser.swift:46-48 | On any line the inventory pattern has one match at most |
| `GatewayLog.SelectedMatchIsUnique` | OverlandApp/Sources/OverlandCore/Service/GpclientOutputParser.swift:49-51 | On any line the selection pattern has one match at most |
| `GatewayLog.InventoryRoundTrip` | crates/gpapi/src/portal/config.rs:360-372 | The app reads an inventory line as the gateway it was printed from, and as nothing else |
| `GatewayLog.SelectedRoundTrip` | OverlandApp/Sources/OverlandCore/Service/GpclientOutputParser.swift:160-166 | The app reads each of the three announcements as the gateway announced |
| `GatewayLog.InventoryMatchIff` | crates/gpapi/src/portal/config.rs:360-372 | For every gateway: its line is read as a name and an address exactly when these are proper and spell the same text around ` (` |
| `GatewayLog.MisreadIff` | OverlandApp/Sources/OverlandCore/Service/GpclientOutputParser.swift:46-48 | It is misread exactly when the address itself holds a blank, a parenthesis and then a proper address, with one line before; read as printed exactly when name and address are proper |
| `GatewayLog.AddressCanMislead` | OverlandApp/Sources/OverlandCore/Service/GpclientOutputParser.swift:46-48 | Such a gateway |
| `SessionLog.SummaryRoundTrip` | crates/gpapi/src/session.rs:128-147 | Lifetime, expiry and the extension flag are read back from the summary; a missing number stays missing |
| `SessionLog.SummaryText` | crates/gpapi/src/session.rs:128-147 | The text of the summary: four labels with their values, a number as its numeral and its reading in parentheses or `none`, the flag as true or false |
| `SessionLog.AfterPiece` | OverlandApp/Sources/OverlandCore/Service/GpclientOutputParser.swift:55-57 | Where a key stands in a line, told one `=` at a time |
| `PortalGateways.FindPreferredGateway` | crates/gpapi/src/portal/config.rs:114-129 | The earliest gateway with the smallest rule priority for the region below u32::MAX, else the earliest with the smallest priority of its own |
| `PortalGateways.PreferredIsUnique` | crates/gpapi/src/portal/config.rs:110-129 | There is only one such gateway |
| `PortalGateways.PreferredByRules` | crates/gpapi/src/portal/config.rs:114-129 | Rule by rule: with any rule for the region or for `Any` below u32::MAX, the preferred gateway has one that no rule undercuts and no earlier gateway matches |
| `PortalGateways.PreferredByPriority` | crates/gpapi/src/portal/config.rs:124-129 | With no such rule it is the earliest of the smallest own priority |
| `PortalGateways.SortGateways` | crates/gpapi/src/portal/config.rs:90-100 | In place: the first gateway with the preferred name and the front change places, every other entry stays where it was |
| `PortalGateways.FrontIsPreferredIff` | crates/gpapi/src/portal/config.rs:90-100 | The front is the preferred gateway exactly when no earlier one has its name; always with distinct names |
| `PortalGateways.SameNameMisleads` | crates/gpapi/src/portal/config.rs:92-96 | Two gateways of one name, and the wrong one in front |
| `AutoGateway.OutcomeMeans` | apps/gpclient/src/connect/gateway.rs:336-480 | What an attempt returns, in terms of what was answered |
| `AutoGateway.TryGateways` | apps/gpclient/src/connect/mod.rs:202-253 | The attempts are a prefix of the list that ends at the first to succeed or fail after its tunnel; none of the earlier tunnels came up; Ok exactly when the last answers make a success |
| `AutoGateway.LoopGoesOnIff` | apps/gpclient/src/connect/gateway.rs:425-437 | After OpenConnect ran, what makes the loop go on |
| `AutoGateway.InterruptCanMoveOn` | apps/gpclient/src/connect/gateway.rs:461-480 | An interrupted attempt can be followed by the next gateway |
| `SessionRenewal.RunSession` | apps/gpclient/src/session.rs:69-107 | The loop over any number of rounds: a session without permission, lifetime or warning is never renewed, each renewed round was answered, and which of the four ends is reported is decided by the session at the start and the answer of the last round |
| `SessionRenewal.WarningInstant` | apps/gpclient/src/session.rs:109-125 | The warning is due prior seconds before the expiry, at once when that has passed, or after lifetime - prior when no expiry is known |
| `SessionRenewal.NextWarning` | apps/gpclient/src/session.rs:109-125 | Without overflow the next warning is no earlier than lifetime - prior after a renewal |
| `SessionRenewal.RenewalsAreSpaced` | apps/gpclient/src/session.rs:69-107 | Renewals k rounds apart are at least k times lifetime - prior apart |
| `SessionRenewal.NoLateRenewal` | apps/gpclient/src/session.rs:109-125 | In every round, the first included: the warning leaves prior seconds to the expiry the program knows exactly when its schedule was read in time, and then a request is done by that expiry exactly when it is within prior of the warning |
| `SessionRenewal.LapsesIff` | crates/gpapi/src/session.rs:121-126 | The gateway handles a renewal before the session ends exactly when the delays of request, last answer and schedule add up to prior at most |
| `SessionRenewal.PunctualNeverLapses` | apps/gpclient/src/session.rs:69-125 | So answers at most slack late and requests done slack early never let the session lapse |
| `SessionRenewal.SlowAnswerLapses` | crates/gpapi/src/session.rs:121-126 | A run with both requests within prior of their warning, and the second after the session ended |
| `SessionRenewal.SpacingIffNoOverflow` | crates/gpapi/src/session.rs:121-126 | The spacing holds exactly when the sum does not saturate, or lifetime does not exceed prior |
| `CscDigest.ReplacedIsFree` | crates/gpapi/src/portal/csc.rs:124-125 | After the substitution no placeholder is left, and none is formed across a splice |
| `CscDigest.ReplaceSwapsSeparators` | crates/gpapi/src/portal/csc.rs:124-125 | The report is its parts joined by the placeholder, the result is them joined by the digest |
| `CscDigest.CutIsUnique` | crates/gpapi/src/portal/csc.rs:124-125 | There is one way only to cut a report at its placeholders |
| `CscDigest.HexIsHex` | crates/gpapi/src/portal/csc.rs:388-395 | Lower-case hex digits, one short of two a byte for every byte below 16 |
| `CscDigest.DeterminedIff` | crates/gpapi/src/portal/csc.rs:388-395 | The digest determines the hash exactly when every byte prints as one digit, or every byte that does is 0 or the last and follows the digit 0 or nothing; so when none does |
| `CscDigest.DigestIsAmbiguous` | crates/gpapi/src/portal/csc.rs:388-395 | Two 16-byte values that print alike, whatever their last 14 bytes |
| `CscDigest.PanMd5Hex` | crates/gpapi/src/portal/csc.rs:388-395 | For every byte list the text cuts into one numeral a byte, one or two of the digits 0 to 9 and a to f, no leading zero before a second, each of that byte's value |
| `CscDigest.SpellingIsUnique` | crates/gpapi/src/portal/csc.rs:388-395 | There is only one text that spells a byte list in this way |
| `CscDigest.BuildCscData` | crates/gpapi/src/portal/csc.rs:96-136 | For every report and hash: the digest spells the sixteen bytes of the hash, no placeholder is left, and the parts of the report stand around the digest |

## Left out

- SwiftUI, menu bar, updates, keychain, location checks and build scripts: platform plumbing.
- HTTP, DNS, TLS, XPC transport, code signing, FIFOs and the OpenConnect library: only their answers, delivery order and failures appear.
- JSON and XML parsing and MD5: the parsed values are the input, and MD5 is any function to 16 bytes.
- Hostname shape, path canonicalisation and file ownership: parameters of the helper's policy.
- UTF-8: streams and the cookie token are byte strings, on which decoding valid text changes nothing; other texts are sequences of characters, so lengths and replacements do not see grapheme clusters or normalisation.
- Human-readable durations and local times: any text without `=`.
- Regular expressions other than the two gateway patterns and the three session patterns; `\d` is an ASCII digit.
- The browser-auth, discovery and disconnect commands of the builder, request parameter tables, OS profiles and HIP report templates: easy members.
- TailProtocol.TailDeliversTheWholeLog: assumes that nothing appends to the log after the exit status is renamed into place; of the wrapper script only that order is modelled.
- The parsing of the exit file's text; the status is an integer, and -1 when it is missing.
- The wait of `disconnect` for the tunnel to end, its escalation to termination, and its polls of `isRunning`: they write no stored property.
- AttachRuns.NoGap: assumes in-order delivery on the connection, one tunnel (a start finds the helper idle), and a command whose `run` in the helper returns only after its last line was recorded and handed to the observers.
- BridgeRuns.OneTunnelAndHonestState: assumes that the helper lookup is one step and that discovery is not started while connected; `LookupRaceIff` and `HonestIff` say what each is needed for.
- `TunnelManager` process identifiers and start dates: not part of what is proved.
- A panicking VPN thread, and the fairness of the locks in `vpn_task.rs`.
- The builder and validator error texts: an error is its case and its data. The app's status and failure messages are shortened: which one is shown is kept, not its wording.
- `try_cached_cookie`, the portal-to-gateway fallback, and the multi-factor loop of `login_gateway`, whose answer is one of the inputs.
