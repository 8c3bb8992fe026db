# A verified model of the VPN helper

The repository is a macOS VPN client with a privileged helper. The helper keeps
WireGuard and OpenVPN tunnels up, compiles a kill switch into pf rules, owns the
system DNS and the routes, and reads profiles that other people wrote. This
project models the parts of it where a mistake lets traffic out, brings back what
the user turned off, or loses what the user had, and proves what they promise.
`dafny verify dfyconfig.toml` checks everything.

## How the files follow the program

| module | what it is |
|---|---|
| `Rules` | the ruleset compiler, against a packet-level verdict |
| `KillSwitch` | the helper's policy fields, every critical section on them, and the ruleset computation |
| `HelperRuns` | the helper as a state machine: policy, both tunnel managers, connects, disconnects, deaths, retry sequences |
| `Steps`, `Frames` | one step at a time: what each kind of step makes of the state, and what it leaves alone |
| `HelperInvariants`, `CallInvariants` | what every reachable state satisfies |
| `FailClosed`, `Exposure` | never open while a wanted tunnel is down: the theorem, and the steps that give the protection away |
| `Falling`, `ClosedExactly` | exactly which tunnels stay closed until the user acts |
| `LostLock` | what a panic under `connectMu` leaves |
| `HoldAccounting` | firewall holds and lookup windows are counted exactly |
| `KnownServers` | what a tunnel that is down but held can still reach, over whole runs |
| `NoResurrection` | a user Disconnect is final |
| `ConnectAttempt`, `AttemptSpoiled` | a failed connect leaves the blocks as they were, and exactly when |
| `Witnesses` | runs from the start of the helper to the states those theorems begin with |
| `Tokenizer`, `ProfileReader`, `ProfileLines`, `ProfileText` | the OpenVPN tokenizer and reader, the quoting of credentials, the reader restated line by line, and what a line and a block say |
| `Allowlist`, `Untrusted` | which directives may reach openvpn, and what none of them can do |
| `Profile`, `ProfileRemotes` | the inspection of a profile, directive by directive, and the servers it names |
| `Stripping`, `StrippedExactly`, `RemotesInEffect` | the rewriting of a profile, that it preserves its meaning, and exactly what is left |
| `SystemDns` | DNS holders, the baseline, the journal, and crash safety at every write |
| `ConfigText`, `ConfigFile`, `ConfigFields`, `ConfigRoundTrip` | the WireGuard configuration parser and printer, what ends up in which field, and the round trip |
| `Routes` | bypass routes kept up incrementally, and where packets go |
| `TunnelManager` | claims and commits of the WireGuard tunnel manager |
| `RouteMonitor`, `Watchdog`, `Overlap` | the debounce counter, the stuck-process clock, prefix overlap |
| `Common`, `Numbers` | `Option`, `Result`, and integer parsing |

## Granularity of the kill-switch runs

One step is one critical section under `h.mu`, together with the manager query
that guards it. An apply (live snapshot and section, serialised by `fwMu`) is one
step and can happen at any time; a policy handler is one step. `connectMu` is a
lock that threads take and give back. An OpenVPN death keeps its stages: death
notice, removal of the entry, final status, death callback, `forgetOrHold`,
notification of the monitor; any other step may run in between, and so it is with
a retry sequence and a connect. The helper keeps one map per policy field, all
keyed by tunnel name; here they are one map of slots (a zero count is an absent
key). `KillSwitch.Helper` updates them in place and is proved against the slot
functions that `HelperRuns` steps with, so both speak about the same sections.
The WireGuard manager has no hook before it removes a dead entry, so the claim
for the window between death and hold is made for OpenVPN only.

## What turned out not to hold as promised

Each is stated as a lemma or an if-and-only-if; the model keeps the code as it is.

- **Closed until the user acts** (internal/reconnect/monitor.go:315-318,
  internal/helper/helper.go:283-374). A reconnect attempt that times out asks its
  process to exit the way a user Disconnect does. The next attempt finds that
  process still listed, waits for it, and takes it for its success if it connects
  after all; the hold ends, and the process then exits without a death notice. So
  every settled tunnel with auto-reconnect can fall without any user action
  (`ClosedExactly.SettledFalls`), if `connectMu` is free for its attempt. One without
  auto-reconnect falls if and only if something of its earlier life endangers it
  (`ClosedExactly.Endangers`): a retry sequence of an earlier connect that has still to
  suspend, which then takes over the block and leaves nothing; one that waits for the
  process and tells it to exit; or the death of an earlier process or engine that has
  still to be forgotten. `ClosedExactly.FallsExactly` proves both directions, and
  `ClosedExactly.ClosedUntilUserActs` what the tunnels that do not fall are promised.
  `FailClosed.Exposes` lists the steps that give protection away; a run without them
  and without user actions is careful. `FailClosed.NeverOpens` is about careful runs
  of any settled tunnel, and `Exposure.OpensExactlyIfExposed` shows of every reachable
  state and every step of a safe tunnel that some careful continuation leaves the
  tunnel unprotected if and only if the step is one of them.
- **`connectMu` is given back** (internal/helper/helper.go:283-317,
  internal/reconnect/monitor.go:292-302). A reconnect attempt unlocks without a
  deferred call and its sequence recovers from panics: after a panic in between,
  nothing gets the lock any more, for whatever tunnel (`LostLock.PanicLosesLock`).
- **A failed connect leaves the blocks as they were** (internal/helper/handlers.go:149-234,
  internal/helper/helper.go:479-504). It does if and only if nothing of the tunnel's
  earlier life that matters is in flight at the lift: no sequence that has still to
  take its hold, no sequence that will give one back or call the manager at the wrong
  time, no death still to be forgotten or notified under auto-reconnect or over a
  pass, no final status over a pass, and for OpenVPN no death in progress; and, if the
  machine may wake meanwhile, no WireGuard request with auto-reconnect and no sequence
  that would call the WireGuard manager afterwards.
  `ConnectAttempt.Disturbed` says it exactly and `AttemptSpoiled.FailedConnectRestoresExactly`
  proves both directions. `AttemptSpoiled.LateStatusBlocks` is the plainest input: reconnect
  a tunnel through another tunnel's block before its old process has reported its
  final status, and the failed connect blocks what never was blocked.
- **persist-remote-ip goes when there are several remotes**
  (internal/ovpn/config.go:99-185). Remotes are counted by the directive's own name,
  while acceptance looks behind setenv opt: a profile keeps persist-remote-ip although
  openvpn gets several remotes if and only if it has both and at most one of the
  remotes stands without setenv opt (`RemotesInEffect.PersistMeetsSeveral`,
  `RemotesInEffect.SetenvRemoteIsNotCounted`).
- **Drift is repaired** (internal/network/dns.go:215-242). Only servers are compared,
  and only if the holders list some. After a re-application in which no write fails,
  the services are in step if and only if the drift was noticed or there was none;
  `SystemDns.DriftUnnoticed` is a drift of the search list alone.
- **A lost DNS write** (internal/network/dns.go:259-277,
  internal/network/dns_journal.go:119-139). A restore ignores the errors of its
  writes and then drops the journal. Everything is the user's again if and only if
  no failed write was to a setting that still differed from the user's;
  `SystemDns.LostWrite` is such an input.
- **Two gateway probes** (internal/network/darwin.go:222-272). The bypass routes
  use one probe and the comparison value for later comes from another. The routes
  are right afterwards if and only if both probes route the bypassed endpoints alike,
  and later events leave a wrong one wrong until a gateway changes
  (`Routes.StaleAfterReapply`). The bypass list is right in any case.
- **Long credentials** (internal/ovpn/management.go:163-181). Quoting and
  tokenizing undo each other if and only if the value has at most 256 bytes; NUL
  bytes are dropped.
- **One full tunnel** (internal/tunnel/manager.go:140-150) relies on connects being
  serialised: a claim keeps it if and only if no other full tunnel is connecting
  (`TunnelManager.ClaimKeepsOneFull`, `TunnelManager.ConcurrentConnectsBothPass`).

## Modelling conventions

A char is one byte in the OpenVPN modules and one code point of valid UTF-8 in the
`Config` modules. `Net` and `Text` values hold functions that stand for the parsers
of the Go library (addresses, host and port, prefixes, trimming); nothing is assumed
of them beyond what a lemma says. Neighbour discovery is that of section 4 of
RFC 4861, DHCP that of section 4.1 of RFC 2131 and section 7.2 of RFC 8415, prefixes
and longest-match forwarding those of sections 3.1 and 5.1 of RFC 4632. The two
fields of a service's DNS settings are one map keyed by service and field.
In `SystemDns` the field `trace` records the settings and the journal after every
single write, so that a statement about all of it is a statement about a crash at
any point.

## Model

| member | source | states |
|---|---|---|
| `Rules.BuildRules` | internal/firewall/rules.go:45-136 | accepts a ruleset exactly if every string it has to read is well formed; then pf, taking the first matching quick rule and otherwise the last match, passes a packet exactly if the declarative verdict does, for every packet; the list is empty exactly if nothing is enforced |
| `Rules.EnforcesDNS` | internal/firewall/rules.go:28-41 | DNS is enforced exactly if it is protected and a server is known or a tunnel is being reconnected |
| `Rules.LookupSection` | internal/firewall/rules.go:69-75 | its rules decide exactly loopback and port 53 to a lookup server |
| `Rules.DNSSection` | internal/firewall/rules.go:80-90 | its rules decide every port 53 packet, passing exactly those to an allowed server on a tunnel interface |
| `Rules.EndpointSection` | internal/firewall/rules.go:96-124 | its rules decide exactly the packets to an endpoint of the tunnel over its transport |
| `Rules.LinkSection` | internal/firewall/rules.go:125-132 | its rules decide exactly DHCP, neighbour discovery and the tunnel interfaces |
| `Rules.QuickThenRest` | internal/firewall/rules.go:125-134 | in a list of quick rules followed by others, the first matching quick rule wins and the rest decide otherwise |
| `Rules.KillSwitchPasses` | internal/firewall/rules.go:95-134 | under the kill switch a packet that is no name query passes exactly on a tunnel interface, to the address, port and transport (tcp for a protocol that begins so, otherwise udp) of an endpoint, from port 68 to 67 or 546 to 547, or as ICMPv6 type 133 to 136 |
| `Rules.ProtectedQueries` | internal/firewall/rules.go:69-90 | with DNS enforced, an outbound packet to port 53 passes exactly to a lookup server, or to an allowed server on a tunnel interface |
| `Rules.WellFormedEndpoints` | internal/firewall/rules.go:14-23 | an endpoint is accepted without a host, or with an address and no port or one from 1 to 65535 |
| `Rules.InterfaceNames` | internal/firewall/rules.go:11-12 | interface names are lower-case letters followed by digits |
| `KillSwitch.Helper.ApplyFirewall` | internal/helper/firewall.go:157-239 | the ruleset is exactly what the policy and the live tunnels call for, and only blocks of live tunnels and cached servers of unneeded names change |
| `KillSwitch.TunnelsExact` | internal/helper/firewall.go:181-212 | live, multi-remote and held passes together give the live interfaces and exactly the known servers of the tunnels that may use them |
| `KillSwitch.AddPass` | internal/helper/firewall.go:65-75 | adds one endpoint for its transport and nothing else; one entry a transport and no endpoint twice stay so, and none is empty |
| `KillSwitch.Helper.EndpointPasses` | internal/helper/firewall.go:81-97 | passes exactly the last used, the configured literal and the resolved servers of the tunnel, one entry a transport and each endpoint once |
| `KillSwitch.Helper.HoldFirewall` | internal/helper/firewall.go:246-254 | the tunnel is held, not blocked and passes through no block; a pending hold or a block is taken over, and nothing else changes |
| `KillSwitch.Helper.ReleaseFirewall` | internal/helper/firewall.go:260-274 | the tunnel stays held exactly if another sequence or a pending hold holds it; it becomes blocked, under its protocol, exactly if this was the last hold of a wanted tunnel that is down under the kill switch |
| `KillSwitch.Helper.OnOVPNDying` | internal/helper/helper.go:419-428 | becomes held before its entry goes exactly if it is wanted and reconnects or is to be blocked; no block changes |
| `KillSwitch.Helper.ForgetOrHold` | internal/helper/helper.go:436-458 | held exactly if it reconnects or a sequence holds it; becomes blocked, and its request forgotten, exactly if it does not reconnect, blocked only if it was wanted under the kill switch |
| `KillSwitch.Helper.OnOVPNGone` | internal/helper/helper.go:479-504 | stays held exactly by a sequence or through a death in progress; becomes blocked exactly if its own pending hold ended under the kill switch and was no pass through a block |
| `KillSwitch.Helper.LiftBlockForConnect` | internal/helper/handlers.go:193-219 | lifts exactly if the tunnel or, under the kill switch, another one is blocked; then it is pending, not blocked, and a pass through a block exactly if it was not blocked itself; the servers just looked up are known from now on, and without answers what was known stays |
| `KillSwitch.Helper.StoreResolved` | internal/helper/firewall.go:392-399 | every answer of the lookup is a known server of the tunnel from now on, nothing else becomes one, and without answers what was known stays |
| `KillSwitch.Helper.OpenLookupWindow` | internal/helper/firewall.go:370-377 | the resolvers may be asked from now on |
| `KillSwitch.Helper.CacheConfig` | internal/helper/handlers.go:149-172 | the tunnel is wanted, reconnects exactly if that was asked for, and the address literals of its configuration are known servers |
| `KillSwitch.Helper.RestoreBlock` | internal/helper/handlers.go:224-234 | held exactly by a sequence; becomes blocked exactly under the kill switch and unless the attempt only passed through a block |
| `KillSwitch.Helper.Disconnect` | internal/helper/handlers.go:255-269 | neither held, blocked nor wanted any more, and the Disconnect is counted |
| `KillSwitch.Helper.SetKillSwitch` | internal/helper/handlers.go:347-373 | the new setting with its ruleset and every block gone when it is turned off, or, if pf refuses it, the old one with the old blocks |
| `KillSwitch.Helper.SetDNSProtection` | internal/helper/handlers.go:377-393 | the new setting with its ruleset, or the old one if pf refuses |
| `HelperRuns.PolicyFrame` | internal/helper/firewall.go:157-239 | a policy step changes only policy slots, by a snapshot that lists exactly the tunnels that are up |
| `HelperInvariants.ReachableSound` | internal/helper/helper.go:283-560 | every reachable state has one owner of connectMu, at most one supervisor or launcher per process entry, no block without the kill switch, and no through-hold that is not pending |
| `HelperInvariants.SoundStep` | internal/helper/handlers.go:79-289 | every critical section of every thread keeps that invariant |
| `FailClosed.NeverOpens` | internal/helper/firewall.go:157-274 | from a settled tunnel under the kill switch in any reachable state, with retries, deaths and statuses of earlier connects in flight, at every point of every careful run the tunnel is live, held, pending or blocked, every ruleset computed has the kill switch on, and a packet it passes goes to a tunnel, a tunnel's server, an open lookup or link control |
| `FailClosed.SettledIsSafe` | internal/ovpn/manager.go:792-808 | a tunnel that is up and wanted, with no user action under way, satisfies the protection invariant in every reachable state |
| `CallInvariants.ReachableWired` | internal/helper/helper.go:283-328 | in every reachable state a retry sequence calls only what is cached with auto-reconnect on, and a pass through a block ends with the callback of the process that used it |
| `FailClosed.RunSafe` | internal/helper/helper.go:401-504 | the protection invariant survives every run without user action on the tunnel and without an exposing step |
| `FailClosed.StepSafe` | internal/reconnect/monitor.go:252-391 | one step, of any thread, keeps it |
| `FailClosed.StaysInActiveRemotes` | internal/ovpn/manager.go:792-942 | an entry that the firewall passes stays so until cleanup removes it, after its notice if it is a death |
| `FailClosed.ProtectedCloses` | internal/helper/firewall.go:157-239 | a state with one protected tunnel under the kill switch never gets an open ruleset |
| `FailClosed.ClosedMeansAllowed` | internal/firewall/rules.go:95-134 | what an exact closed ruleset lets out |
| `Exposure.OpensExactlyIfExposed` | internal/helper/helper.go:330-374 | in every reachable state and for every step of a safe tunnel that is no user action: some careful continuation, one without user actions and further exposing steps, leaves the tunnel unprotected if and only if the step is a timeout, release, late forget, or takeover of a block by a leftover sequence in the exposing situation |
| `ClosedExactly.FallsExactly` | internal/helper/helper.go:283-374 | a settled tunnel under the kill switch, in any reachable state, has a run without user action that leaves it unprotected if and only if it has auto-reconnect (with connectMu free), or without it a sequence of an earlier connect has still to suspend or waits for the process, or the death of an earlier process or engine is still to be forgotten |
| `ClosedExactly.ClosedUntilUserActs` | internal/helper/firewall.go:157-274 | without auto-reconnect and with none of these, in every run without a user action on the tunnel, it is live, held, pending or blocked, every ruleset has the kill switch on, and a packet it passes goes to a tunnel, a tunnel's server, an open lookup or link control |
| `ClosedExactly.SettledFalls` | internal/helper/helper.go:330-374 | every settled auto-reconnect tunnel in a reachable state with connectMu free has a run without user action that leaves it unprotected, whatever else is in flight |
| `ClosedExactly.LeftOverSequenceFalls` | internal/helper/firewall.go:246-274 | so has a settled tunnel without auto-reconnect beside a sequence of an earlier connect that has still to suspend |
| `KnownServers.AnswersArePassed` | internal/helper/firewall.go:392-417 | from the lift of a connect or the end of a retry's lookup on, in every run in which no later lookup finds others and policy steps find the tunnel up, held or a wanted OpenVPN one, each ruleset computed while it is held and down lets a connect out to every answer of the lookup |
| `KnownServers.LastServersArePassed` | internal/helper/firewall.go:170-177 | the servers the tunnel was last up with are passed by every ruleset computed while it is held, in every run in which it stays down and cared for |
| `KnownServers.ConfiguredArePassed` | internal/helper/firewall.go:81-97 | so are the address literals of its configuration |
| `KnownServers.RemotesArePassed` | internal/helper/firewall.go:181-190 | an OpenVPN tunnel with at least two servers has all its literals and answers passed while it is up |
| `KnownServers.ServersExactly` | internal/helper/firewall.go:157-212 | a transport and endpoint is passed if and only if a live tunnel is up with it, or it is a configured or found server of an OpenVPN tunnel that is up and has several, or a configured, found or last used one of a tunnel that is down and held |
| `KnownServers.ResolversAreReached` | internal/helper/firewall.go:370-388 | until its last lookup window closes or another opens, every ruleset that is not empty passes queries to the resolvers of the lookup |
| `LostLock.PanicLosesLock` | internal/helper/helper.go:283-317 | after a panic of an attempt that has connectMu and the end of its sequence, in every run from then on no connect, disconnect or attempt gets the lock |
| `Witnesses.SettledExists` | internal/helper/handlers.go:79-191 | a run from the start of the helper to a settled auto-reconnect tunnel with connectMu free, which falls |
| `Witnesses.LeftOverExists` | internal/reconnect/monitor.go:204-291 | a run to a settled tunnel without auto-reconnect beside a registered sequence of its last connect, which falls |
| `Witnesses.ClosedExists` | internal/helper/handlers.go:79-191 | a run to a settled tunnel without auto-reconnect, which does not fall |
| `HoldAccounting.EverySuspendResumesOnce` | internal/reconnect/monitor.go:319-391 | in every run, a retry sequence that has ended resumed exactly as often as it suspended, and at most once, whatever way it ended |
| `HoldAccounting.HeldCountsSequences` | internal/helper/firewall.go:246-274 | without a user Disconnect, the hold count is the number of sequences that have suspended and not resumed |
| `HoldAccounting.HeldWhileASequenceHolds` | internal/reconnect/monitor.go:272-291 | so a tunnel is held as long as one sequence holds, while sequences replace one another |
| `HoldAccounting.EveryHoldHasASequence` | internal/helper/firewall.go:246-274 | in every reachable state, Disconnects included, no tunnel is held more often than sequences hold it |
| `HoldAccounting.WindowsBalance` | internal/helper/firewall.go:364-399 | open windows are opens minus closes, and resolvers are passed exactly while there is one |
| `NoResurrection.DisconnectIsFinal` | internal/helper/handlers.go:236-289 | after a Disconnect, in every run without a connect that began later, neither manager is asked to connect the tunnel, it is neither pending nor blocked nor wanted, no retry sequence is added, and it is not held once those that were running have ended |
| `NoResurrection.StaysOff` | internal/reconnect/monitor.go:199-208 | being off is kept by every step, with connects, deaths and retries in flight |
| `NoResurrection.ClearTurnsOff` | internal/helper/handlers.go:255-269 | the section of the Disconnect turns the tunnel off in any reachable state |
| `ConnectAttempt.FailedConnectRestores` | internal/helper/handlers.go:149-234 | however an undisturbed connect fails, at once or when its process ends without becoming active, and though the machine wakes meanwhile if it may, the tunnel ends blocked exactly if it was, with no hold |
| `AttemptSpoiled.FailedConnectRestoresExactly` | internal/helper/helper.go:401-504 | every failing run of a connect from its lift, with or without wakes of the machine, restores the tunnel if and only if nothing in flight disturbs it at the lift |
| `AttemptSpoiled.LateStatusBlocks` | internal/helper/helper.go:479-504 | with the final status of an earlier process still to come, a connect through another tunnel's block can fail and leave the tunnel blocked that was not |
| `AttemptSpoiled.WakeSpoils` | internal/reconnect/monitor.go:397-438 | a wake while an auto-reconnect WireGuard connect starts its engine begins a sequence whose hold outlives the failed connect |
| `Witnesses.LateStatusExists` | internal/helper/handlers.go:193-234 | a run from the start of the helper to such a connect, which can end with the tunnel blocked |
| `ConnectAttempt.OthersKeepTheirBlocks` | internal/helper/handlers.go:193-234 | no step of the attempt touches another tunnel's hold or block, and an apply or a policy handler that keeps the kill switch lifts another's block only while that tunnel is live |
| `ConnectAttempt.ThroughIsPending` | internal/helper/handlers.go:193-219 | in every reachable state, a tunnel that passes through another's block is pending |
| `Tokenizer.ParseLine` | internal/ovpn/parse.go:48-143 | the scanner's loop returns the tokens of the character-by-character definition, errors included |
| `Tokenizer.QuotingRoundTrip` | internal/ovpn/management.go:163-181 | for NUL-free credentials, the line reads back as command, Auth and the very value exactly if the value has at most 256 bytes |
| `Tokenizer.CredentialsReadBack` | internal/ovpn/management.go:177-181 | for any value, the line reads back as the value without its NULs, or is refused if that is too long |
| `Tokenizer.SendCredentials` | internal/ovpn/management.go:164-175 | refuses exactly credentials with a line break, and otherwise sends the two lines |
| `Tokenizer.QuotedTail` | internal/ovpn/parse.go:69-124 | inside quotes the scanner gives back what was escaped, whatever was collected before |
| `ProfileText.WordsRead` | internal/ovpn/parse.go:48-143 | a line of words with blanks between them is read as the words, the first sixteen of them |
| `ProfileText.SingleQuotedWord` | internal/ovpn/parse.go:69-124 | between single quotes every character stands for itself, and without the closing quote the line is refused |
| `ProfileText.DoubleQuotedWord` | internal/ovpn/parse.go:69-124 | between double quotes likewise, but for the quote and the backslash |
| `ProfileText.EscapeReads` | internal/ovpn/parse.go:69-117 | in a word a backslash takes a blank, a double quote or a backslash into it, and before anything else the line is refused |
| `ProfileText.TooLongWord` | internal/ovpn/parse.go:119-124 | a word of 257 characters is refused |
| `ProfileText.LineIsDirective` | internal/ovpn/parse.go:297-331 | a line of words is the plain directive of that name and arguments, with its line number |
| `ProfileText.DashedLine` | internal/ovpn/parse.go:146-151 | two dashes before a name are dropped |
| `ProfileText.BlockIsDirective` | internal/ovpn/parse.go:276-344 | a block is one directive with the text between its tags, whose lines are read as nothing else |
| `ProfileText.ClosesHow` | internal/ovpn/parse.go:276-294 | a line closes a block only if, blanks aside, it starts with the close tag |
| `ProfileText.LongLineRefused` | internal/ovpn/parse.go:297-315 | a first line of more than 255 bytes is refused |
| `ProfileText.FieldLimits` | internal/ovpn/parse.go:205-243 | a line of a block has at most 255 bytes before its line feed, longer ones are cut and flagged, and a body gets the line feed back of those of at most 254 |
| `ProfileText.MarkDropped` | internal/ovpn/parse.go:316-319 | a byte order mark before the first line says nothing |
| `ProfileReader.LineCounter.At` | internal/ovpn/parse.go:258-270 | the incremental counter gives the number of the line, as counting from the start would |
| `ProfileReader.LineSource.NextLine` | internal/ovpn/parse.go:179-199 | one fgets: at most size-1 bytes, newline included |
| `ProfileReader.LineSource.NextField` | internal/ovpn/parse.go:205-230 | one buf_parse: the line without its newline, flagged if it is too long |
| `ProfileReader.LineSource.Next` | internal/ovpn/parse.go:233-243 | either discipline, as the source requires |
| `ProfileReader.ReadInline` | internal/ovpn/parse.go:276-294 | the body up to the closing tag, or why there is none |
| `ProfileReader.ParseConnection` | internal/ovpn/parse.go:353-390 | the loop returns the directives of the recursive definition for the body of a connection block |
| `ProfileReader.ReadBlock` | internal/ovpn/parse.go:332-344 | an inline block and where the text goes on |
| `ProfileReader.ParseConfig` | internal/ovpn/parse.go:297-348 | refuses a text with NUL at its line, and otherwise returns the directives of the recursive definition |
| `ProfileLines.ParsedByLine` | internal/ovpn/parse.go:297-348 | for lines of at most 255 bytes, reading bytes by position gives the directives of the lines, block by block, each with its line number |
| `ProfileLines.BodyReads` | internal/ovpn/parse.go:276-294 | under both disciplines a body is the lines up to the closing one |
| `ProfileLines.ConnectionReads` | internal/ovpn/parse.go:353-390 | a connection body re-read by buf_parse gives its lines' directives |
| `Profile.InspectProfile` | internal/ovpn/config.go:79-190 | accepts exactly small, parsable profiles that may be run, says for the others why not and on which line, returns the remotes and the lines to strip; no directive of an accepted profile, in a block or behind setenv opt to any depth, runs a program, loads code, names a file to read or write, carries credentials or key material by path, sets a variable of the environment, or asks for a privileged port |
| `Untrusted.CheckedIsHarmless` | internal/ovpn/allowlist.go:10-21 | what the allowlist takes has none of the options that run programs, load libraries, open files or change the process; key material is inline, auth-user-pass has no file, a proxy no credentials file, setenv none but the listed variables, devices are tun and local ports unprivileged; so it is for all that setenv opt applies, which is no user, group or block either |
| `Untrusted.OrdinaryIsChecked` | internal/ovpn/allowlist.go:60-190 | it takes every ordinary directive: the common options with any arguments, key material as blocks, and each option that is checked by its arguments within stated bounds |
| `Untrusted.CheckedIsOrdinary` | internal/ovpn/allowlist.go:60-266 | and takes nothing else |
| `Profile.AcceptedExactly` | internal/ovpn/config.go:79-178 | a profile may be run if and only if each directive is ordinary, blocks hold no user or group, some directive applies remote, some client or tls-client, and no privileged port is bound, each of them itself or behind setenv opt |
| `Profile.StripsExactly` | internal/ovpn/config.go:99-185 | the lines to strip are exactly those of user and group and, with more than one remote collected, of every persist-remote-ip, in blocks and behind setenv opt too |
| `Profile.VisitOne` | internal/ovpn/config.go:95-155 | one directive is permitted or refused by its line, and adds exactly its facts |
| `Profile.CollectRemotes` | internal/ovpn/config.go:299-337 | every remote, in order, with the defaults of the file and of its block |
| `ProfileRemotes.RemotesExactly` | internal/ovpn/config.go:282-337 | exactly the plain remotes with a host are collected, in order: the host without square brackets, its own port or that of the last port or rport, 1194 otherwise, and tcp exactly if its own protocol or that of the last proto begins with tcp in any case; options of a block count before those of the file |
| `Profile.RuntimeConfig` | internal/ovpn/config.go:248-268 | blanks exactly the lines to strip and keeps every newline |
| `Stripping.StrippingPreservesTheProfile` | internal/ovpn/config.go:248-268 | for every accepted profile of short lines, the rewritten text parses to exactly its directives minus the stripped ones, in blocks too, same order, arguments and line numbers; no user or group is left, with several directives named remote no persist-remote-ip in any guise, and the remotes are the same |
| `StrippedExactly.RuntimeIsLeft` | internal/ovpn/config.go:248-268 | what openvpn reads of an accepted profile of short lines is the profile, in order and in each block, without exactly user, group and, with more than one remote collected, every directive that applies persist-remote-ip |
| `RemotesInEffect.PersistMeetsSeveral` | internal/ovpn/config.go:99-185 | persist-remote-ip is kept beside several remotes that openvpn dials if and only if the profile has both and at most one of them is named remote, the others standing behind setenv opt |
| `RemotesInEffect.SetenvRemoteIsNotCounted` | internal/ovpn/config.go:299-337 | client, remote a, setenv opt remote b, persist-remote-ip is accepted with one remote counted, two dialled and nothing stripped |
| `Stripping.FilePrunes` | internal/ovpn/config.go:248-268 | blanking the lines of plain directives removes exactly those directives from what the text parses to |
| `Stripping.ConnectionPrunes` | internal/ovpn/parse.go:353-390 | likewise inside a connection block, whose body has just that line blanked |
| `Stripping.FileAscends` | internal/ovpn/parse.go:297-348 | directives carry strictly increasing line numbers, so a line names one directive |
| `Stripping.DropMatches` | internal/ovpn/config.go:99-185 | the lines to strip are exactly those of stripped directives |
| `Stripping.KeptIsClean` | internal/ovpn/config.go:193-198 | what is kept has no directive whose effective name had to go |
| `Stripping.SameRemotes` | internal/ovpn/config.go:299-337 | stripping changes no remote |
| `SystemDns.SystemDNS.CaptureBaseline` | internal/network/dns.go:182-209 | saves and journals the settings of services not saved yet; every state on the way is recoverable |
| `SystemDns.SystemDNS.ApplyUnion` | internal/network/dns.go:156-177 | the services get the union of the holders, or for an empty field their baseline, every state on the way recoverable; unless a write failed, their servers are exactly the addresses that holders list, each once, and their search lists exactly the other entries |
| `SystemDns.SystemDNS.SetDNS` | internal/network/dns.go:87-122 | the holder is set and newest if new, or, on a failed check, holders, order and entries are as before; every state on the way is recoverable, and unless a write failed the services are in step, with exactly the addresses listed as servers and the other entries as search lists, and the check fails exactly if there are servers to show and no service can be read |
| `SystemDns.SystemDNS.RestoreDNS` | internal/network/dns.go:126-134 | removes one holder; the rest stay in step, and after the last everything is the user's, with nothing saved or journaled, unless a write failed |
| `SystemDns.SystemDNS.ReleaseOrReapply` | internal/network/dns.go:138-150 | re-applies for the holders left, or restores for none |
| `SystemDns.SystemDNS.ReapplyIfDrifted` | internal/network/dns.go:215-242 | unless a write fails, the services are in step afterwards if and only if the drift was noticed (a new or unreadable service, or other servers than the union's) or they were before; unnoticed, nothing is written |
| `SystemDns.DriftUnnoticed` | internal/network/dns.go:220-236 | a drift of the search list alone, or of servers the holders do not list, is not noticed |
| `SystemDns.LostWrite` | internal/network/dns_journal.go:119-139 | a lost write with the journal dropped: the user's setting can no longer be recovered |
| `SystemDns.UnionOf` | internal/network/dns.go:66-81 | the loop over the holders computes the union of both fields |
| `SystemDns.SystemDNS.RestoreBaseline` | internal/network/dns.go:259-277 | everything is the user's again if and only if no needed write was lost; every state before the journal goes is recoverable |
| `SystemDns.SystemDNS.VerifyDNS` | internal/network/dns.go:282-303 | succeeds exactly if some service that can be read at one of the two attempts shows the expected server |
| `SystemDns.SystemDNS.SetHolder` | internal/network/dns.go:44-52 | a new holder comes first, a known one keeps its place |
| `SystemDns.SystemDNS.RemoveHolder` | internal/network/dns.go:55-62 | removes exactly one holder and keeps the order of the rest |
| `SystemDns.UnionIs` | internal/network/dns.go:66-81 | exactly the holders' entries of the field, each once, the newest holder's first |
| `SystemDns.SystemDNS.InSyncAsListed` | internal/network/dns.go:156-177 | services in step have as servers exactly the addresses that some holder lists, and as search list exactly the other entries, or what the user had where there are none |
| `SystemDns.SplitDNSEntries` | internal/network/dns.go:314-327 | every entry that is not blank goes, trimmed, to exactly one list, addresses to the servers and the rest to the search list, in order |
| `SystemDns.SystemDNS.WriteJournal` | internal/network/dns_journal.go:44-56 | the journal on disk is the saved baseline |
| `SystemDns.SystemDNS.RemoveJournal` | internal/network/dns_journal.go:59-66 | no journal is left |
| `SystemDns.SystemDNS.RestoreDNSFromJournal` | internal/network/dns_journal.go:119-139 | from any recoverable crash state everything is the user's again if and only if no needed write is lost, and a second crash on the way leaves a recoverable state |
| `SystemDns.SafeIffRecoverable` | internal/network/dns_journal.go:119-139 | every setting that differs from the user's is journaled with its original exactly if replaying the journal gives back all of them |
| `ConfigFile.Parse` | internal/config/parser.go:14-92 | the scanning loop returns what loading the lines' items one after another gives, errors and line numbers included |
| `ConfigFields.ParsedSaysIt` | internal/config/parser.go:14-154 | a text parses if and only if each line fits (key = value in a section, numbers where numbers belong) and a private key is given; each field is then what the lines of its section say of it: the last value of a key in any case, all items of a list, a bare IPv4 address followed by /32 and a bare IPv6 one by /128 and nothing else changed, all commands, and unknown keys with all their values; otherwise the first line that does not fit is reported |
| `ConfigFields.PaddedPair` | internal/config/parser.go:52-61 | blanks around a key and its value do not count |
| `ConfigFields.CommentGoes` | internal/config/parser.go:27-31 | from a number sign on a line is a comment |
| `ConfigFields.SaysNothing` | internal/config/parser.go:32-35 | a blank line and one that starts with a semicolon say nothing |
| `ConfigFields.AnyCase` | internal/config/parser.go:94-154 | keys are the same in any case |
| `ConfigFields.LineEnds` | internal/config/parser.go:22-28 | a line ends with a line feed, with or without a carriage return |
| `ConfigFields.MarkGoes` | internal/config/parser.go:16-17 | a byte order mark says nothing |
| `ConfigFile.Serialize` | internal/config/parser.go:159-207 | the printed text is that of the configuration's items, in their order |
| `ConfigFile.WriteScriptLines` | internal/config/parser.go:226-233 | one line for each part of a hook |
| `ConfigFile.WriteExtraKeys` | internal/config/parser.go:249-258 | the unknown keys in ascending order, each with all its values |
| `ConfigRoundTrip.RoundTrip` | internal/config/parser.go:14-289 | for every NUL-free text that parses, the printed text parses to the same configuration without non-positive numbers and empty unknown keys, and prints the same again |
| `ConfigRoundTrip.PrintedParses` | internal/config/parser.go:159-276 | every well-formed configuration with a private key is read back from its printed text |
| `ConfigRoundTrip.ParsedIsWellFormed` | internal/config/parser.go:14-154 | whatever parses is well formed: trimmed values, no comment or line break, lists already with their prefix length |
| `ConfigRoundTrip.NormalPrintsSame` | internal/config/parser.go:159-258 | what a round trip drops is not printed |
| `ConfigRoundTrip.ScriptLoads` | internal/config/parser.go:216-233 | the printed lines of a hook rebuild it |
| `ConfigRoundTrip.AllExtraLoads` | internal/config/parser.go:237-258 | the printed unknown keys rebuild their map |
| `ConfigText.JoinSplits` | internal/config/parser.go:278-288 | reading a joined list gives the list |
| `ConfigText.SortKeys` | internal/config/parser.go:249-258 | the keys in ascending order, each once |
| `ConfigText.LessMeans` | internal/config/parser.go:249-258 | ascending is by the first character that differs, a prefix first |
| `ConfigText.SignedNumbers` | internal/config/parser.go:104-115 | a number may have a sign and lies within 64 bits |
| `Routes.DarwinManager.Reapply` | internal/network/darwin.go:300-444 | the bypass list is afterwards that of a rebuild from the live endpoints, whatever the gateways; the host routes are those of a rebuild, foreign ones untouched, if and only if a gateway changed or every kept endpoint's route was right; then each endpoint of a hijacked family leaves by the gateway of its own family, or into a blackhole exactly without one |
| `Routes.StaleAfterReapply` | internal/network/darwin.go:222-272 | a gateway that moves between the two probes leaves a stale route that the next event does not put right |
| `Routes.DarwinManager.AddRoutes` | internal/network/darwin.go:145-278 | every prefix is routed into the tunnel, 0.0.0.0/0 and ::/0 as their two halves; of the endpoints exactly those of a hijacked family get a host route, by the gateway of their own family or into a blackhole exactly without one; the bypass list is right, and the routes lead where the second probe says if and only if both probes agree on the endpoints |
| `Routes.DarwinManager.AddBypass` | internal/network/darwin.go:508-575 | one host route, by the IPv4 gateway for an IPv4 endpoint and the IPv6 gateway for an IPv6 one, or a blackhole exactly if that gateway is unknown |
| `Routes.DarwinManager.Cleanup` | internal/network/darwin.go:657-685 | of the host routes exactly the foreign ones are left, and no route into the tunnel; the release of DNS is RestoreDNS |
| `Routes.Incremental` | internal/network/darwin.go:356-421 | keeping what stays and adding what is new comes to the same as a rebuild exactly if what stays was right |
| `Routes.StringSetEqual` | internal/network/darwin.go:480-495 | true exactly for lists with the same elements as often |
| `Routes.SortAllowedIPs` | internal/network/darwin.go:881-897 | a permutation, longest prefix first |
| `Routes.FullTunnelForwarding` | internal/network/darwin.go:191-254 | with longest-match forwarding, every address of a hijacked family that no foreign route beyond a default matches is forwarded: its endpoints by the gateway of the family, or nowhere exactly without one, everything else into the tunnel |
| `Routes.EverythingElseIsTunnelled` | internal/network/darwin.go:191-207 | the two halves outrank a default route for every address |
| `Routes.EndpointsGoAround` | internal/network/darwin.go:209-254 | the host route outranks the halves |
| `TunnelManager.Manager.ClaimConnect` | internal/tunnel/manager.go:128-168 | a name is claimed only if it is in no state and no claim on it is out; each refusal says exactly why; it keeps at most one full tunnel if and only if it is refused, not full, or no other full tunnel is connecting |
| `TunnelManager.Manager.CommitConnect` | internal/tunnel/manager.go:173-202 | finds the very entry its thread claimed: the entry becomes connected with the engine built for it, or goes |
| `TunnelManager.Manager.ConnectPhases` | internal/tunnel/connect_phases.go:18-85 | a new engine that nobody has, open, or none |
| `TunnelManager.Manager.ClaimDisconnect` | internal/tunnel/manager.go:257-289 | claims exactly a connected, unclaimed tunnel, which then has an engine |
| `TunnelManager.Manager.ClaimDeath` | internal/tunnel/manager.go:228-239 | claims exactly the connected tunnel whose engine died |
| `TunnelManager.Manager.DisconnectPhases` | internal/tunnel/connect_phases.go:89-102 | closes the claimed engine and no other |
| `TunnelManager.Manager.CommitTeardown` | internal/tunnel/manager.go:294-298 | removes the very entry its thread claimed, whose engine is closed |
| `TunnelManager.OpenEnginesAreConnected` | internal/tunnel/manager.go:125-300 | with no claim out, the open engines are exactly those of connected tunnels |
| `TunnelManager.ClaimKeepsOneFull` | internal/tunnel/manager.go:140-157 | a claim keeps at most one full tunnel if and only if it is not full or no full tunnel is connected or connecting |
| `TunnelManager.ConcurrentConnectsBothPass` | internal/tunnel/manager.go:140-150 | without serialised connects two full tunnels pass the check |
| `RouteMonitor.Monitor.Begin` | internal/network/monitor_darwin.go:42-67 | starts unless it runs, was stopped, or cannot be launched |
| `RouteMonitor.Monitor.OnEvent` | internal/network/monitor_darwin.go:126-137 | arms the timer anew; the counter keeps its balance whether or not the old timer could be stopped |
| `RouteMonitor.Monitor.TimerFires` | internal/network/monitor_darwin.go:142-147 | the armed timer becomes a running callback; the counter stays |
| `RouteMonitor.Monitor.CallbackChecks` | internal/network/monitor_darwin.go:138-155 | a fired callback reapplies only while the monitor runs |
| `RouteMonitor.Monitor.CallbackEnds` | internal/network/monitor_darwin.go:142-154 | a callback that ends is counted off |
| `RouteMonitor.Monitor.StopUnderLock` | internal/network/monitor_darwin.go:73-97 | disarms and tells whether there is something to wait for |
| `RouteMonitor.CounterExact` | internal/network/monitor_darwin.go:38-155 | in every run the pending counter is one for an armed timer plus the callbacks running, and never negative |
| `RouteMonitor.EventIsHandled` | internal/network/monitor_darwin.go:126-155 | an event that a running monitor gets arms the timer, which fires into one callback that re-applies, or skips if Stop came first |
| `RouteMonitor.StopIsFinal` | internal/network/monitor_darwin.go:73-103 | after the Stop that waited returns, nothing fires, checks or reapplies ever again, late starts included |
| `Watchdog.Watchdog.Check` | internal/helper/helper.go:724-778 | one tick recycles exactly the tunnels whose clock is due, and keeps the clocks of those still stuck |
| `Watchdog.RecycleIsDue` | internal/helper/helper.go:724-778 | a recycle was preceded by a tick at least the timeout earlier, with the tunnel stuck, wanted and not waiting for the user at every tick since |
| `Watchdog.RecyclesAreApart` | internal/helper/helper.go:711-778 | two recycles of a tunnel are at least the timeout apart |
| `Watchdog.StuckIsRecycled` | internal/helper/helper.go:724-778 | a tunnel stuck for the timeout is recycled by then |
| `Overlap.FindOverlaps` | internal/tunnel/conflict.go:201-224 | reports exactly the new prefixes that share an address with some existing one, each once, naming such a one |
| `Overlap.TouchesIffShares` | internal/tunnel/conflict.go:212-218 | one prefix contains the other's base exactly if they share an address: prefixes are nested or disjoint |
| `Overlap.LongerDecides` | internal/tunnel/conflict.go:212-218 | an address of a longer prefix lies with its base in every shorter one |
| `Overlap.NormalizeCIDR` | internal/tunnel/conflict.go:226-248 | the text of a full prefix, whose host length, octets and mask the next two rows state |
| `Overlap.BareIsHost` | internal/tunnel/conflict.go:226-248 | a bare IPv4 address is a /32 and a bare IPv6 one a /128 |
| `Overlap.MaskedIs` | internal/tunnel/conflict.go:226-248 | an IPv6 prefix stays as it is, and an IPv4 one gets a zero for every octet it leaves out |

## Left out

- Helper shutdown and grace timer, the stop of the reconnect monitor, status broadcasts, IPC and peer checks: no step of the runs.
- User interface, history, updates, logging, file permissions, name sanitising: nothing to prove that a reader would not see.
- The fragment reassembly lines of the ruleset: packets are whole.
- pfctl, networksetup, route, netstat, the openvpn process, engines and sockets: updates of modelled state that succeed or fail; pf's state table and TCP flags: packets are connection-opening.
- Sleeps and timeouts: a timer fires at any time. The bounded wait for a replaced retry sequence and for a tunnel in transition is not waited for.
- The teardown of a stale WireGuard tunnel by a retry sequence is one step; a panic inside a sequence is one step to its release, and `connectMu` stays taken if it held it, as in the code.
- `HelperRuns`: the WireGuard engine's address and route setup is one step; health checks are an environment step that may start a sequence for any wanted WireGuard tunnel.
- `ConnectAttempt.FailedConnectRestores`: a run has no second connect or disconnect of the tunnel that acts while the attempt lasts, starts with the tunnel down, neither held nor pending, and keeps the kill switch as it is.
- `FailClosed.NeverOpens`: excludes runs in which CONNECTED names no server, and a name that is used for a WireGuard tunnel at the same time.
- `ClosedExactly.FallsExactly`: with auto-reconnect it is stated for a free `connectMu`, for a thread that never gives it back would keep the sequence waiting. Its runs, and those of `ClosedExactly.ClosedUntilUserActs`, exclude a CONNECTED that names no server, as `FailClosed.NeverOpens` does.
- `KillSwitch.Helper.ApplyFirewall`: how firewall.go builds the list of live tunnels from both managers is not modelled, only that the list is a snapshot of the tunnels that are up; the `dns` argument, the servers of the tunnels' interfaces, is any list. pf's refusal of a ruleset is a parameter of the policy handlers only; elsewhere the code ignores it, and so does the model.
- `Allowlist`: the rule table is a function of the name instead of a map that init fills; arguments of the directives it checks are checked as in the source.
- `Profile.InspectProfile`: fields that decide neither acceptance nor stripping (keepalive, MTU, verbosity, ciphers, pushed DNS, pull filters) are not computed.
- `Stripping.StrippingPreservesTheProfile`: lines over 255 bytes are excluded; there openvpn itself splits or refuses them.
- `ConfigFile.Parse`: the scanner's limit on the length of a line is not modelled, and a text is valid UTF-8, one character a code point. Keys are kept as text; that they are base64 is checked by internal/config/validator.go, which is not part of this model.
- `SystemDns`: reads of current settings and journal I/O succeed, and nobody else writes the settings, except as drift that `ReapplyIfDrifted` repairs.
- `Routes.DarwinManager.AddRoutes`: route commands succeed, interface pinning is off, and a manager, being made for one connect, has no bypass routes before; an endpoint's text shows its family by a colon, as addresses print.
- `Routes.FullTunnelForwarding`: an allowed prefix that is an endpoint's own address alone competes with its host route and is excluded.
- `TunnelManager`: the wait of a disconnect for a transition in progress is its refusal.
- `Overlap.TouchesIffShares`: IPv4-mapped IPv6 prefixes are excluded.
- `Watchdog.Watchdog.Check`: the list of candidates, read under the manager's lock, is an input of the tick.
