# Models and proofs for the gonnect VPN example

The example application connects two machines with a VPN over a WebSocket. These Dafny modules model
the parts of it whose correctness is not visible from one function: three session lifecycles that
several goroutines share, the packet transport, the address arithmetic behind the native device, and
the header texts. `dafny verify dfyconfig.toml` verifies all of them.

## The modules

* `GuiWorld`, `GuiExclusion`, `GuiRecovery`, `GuiCredit`, `GuiOverflow`, `GuiVTun`, `GuiDisplay`,
  `GuiClose`, `GuiSession` - the desktop
  GUI. One UI thread runs frames (poll the buttons, drain the queue, lay out); starters, waiters,
  requests and pings run beside it and report over a queue of 32 that drops what does not fit.
  `GuiWorld` is the transition system, with one step per click, per received update and per thing a
  goroutine does. `GuiSession.Gui` is the object itself, whose methods change its fields as the
  program does; each is proved to take the steps of the transition system. Its fields `phase`, `lost`,
  `live` and `nextId` are bookkeeping of the model. `GuiClose` is what follows the window's end.
* `RunnerSystem`, `RunnerSafety`, `RunnerOrder`, `RunnerShutdown` - one call of `runner.Start` and the session it
  creates. The starting thread, every function given to the wait group, and the goroutine that closes
  `done` are scripts of actions; a step is the next action of any of them, a connection that reaches
  the SOCKS accept loop, or the cancellation of the context.
* `DeviceSetup`, `DeviceLaws` - `TunFromCfg` with its branches for the three kinds of devices and the platforms, on
  the texts of a configuration, feeding the runs of `RunnerSystem`.
* `VTunSession` - the session of the vtun client, whose one goroutine closes its resources.
* `MobileClient`, `MobileGate` - the mobile client, whose calls are cut where they release their
  mutex, first in any interleaving and then behind the view model's busy flag.
* `Transport`, `ConnEvents`, `LoggingTun` - `Conn.Read` and `Conn.Write` on arrays, refined to a queue of packets
  (messages as in section 5.6 of RFC 6455), the connection's event channel, and the bounds guard on 64-bit machine integers.
* `Cidr`, `NetipText`, `NetipLaws`, `NativeRoute` - prefixes as sets of addresses (section 3.1 of RFC 4632), their
  texts, and the commands that configure the native device.
* `Text`, `HeaderText`, `HeaderLaws` - the header parser, the writer of Go's `net/http`, and the response text
  (sections 5.1, 5.3 and 5.5 of RFC 9110).
* `Sequences` - options, and filters and sums over sequences.

## What the proofs found

* A dropped "started" or "stopped" update leaves the GUI unable to start a session for good, and this
  is exact: another start is possible if and only if no update of the start in progress was lost
  (`GuiRecovery.StartAgainIffNothingLost`). It can happen: the result of a ping clears the busy flag
  of the request as well, so the number of requests in flight has no bound, and when a stop makes
  them all answer at once the report of the session's end finds the queue full
  (`GuiOverflow.LossIsReachable`). If every click keeps the updates queued and still to come at 32 or
  less, nothing is ever dropped (`GuiCredit.BudgetPreventsDrops`). A starter counts once for its
  report and its waiter counts from the click on stop.
* Closing the window while a start is under way may end the program with a session running: only the
  session the UI holds is waited for. The close is orderly exactly if nothing of the latest start is
  left or the UI holds its session, so always when no start is shown in progress
  (`GuiClose.OrderlyIffHeld`, `GuiClose.OrderlyUnlessStarting`).
* A connection's `Close` waits for ever once 41 more closes ran than events were received
  (`ConnEvents.CloseWaitsIff`).
* Some failing starts leave the device they built open, and `DeviceSetup.DeviceLeftOpenIff` says exactly
  which: a `vtun+http` device whose HTTP address is readable neither as an address with a port nor as an
  address (the host name `localhost` is one), whose own address is IPv6 or loopback with nothing
  configured and the zero address refused, or whose address is refused; and a native device on unix
  one of whose commands fails under a logger whose `Panicln` panics, as Go's does, because the close
  comes after it. Each of these is reached by a run (`DeviceSetup.LeakIsReachable`).
* Two overlapping `Connect` calls of the mobile client both pass the check, and the session installed
  first is never stopped (`MobileClient.TwoConnectsOrphan`). A session is orphaned exactly in the runs
  in which a dial is installed over another session (`MobileClient.OrphanIffOverwritten`), and never
  behind the busy gate (`MobileGate.GateSerializes`).
* Without the gate the mobile client can say "connected" with no session, and "idle" with one. After
  any interleaving the status makes a false claim exactly when the last section that wrote it was late:
  an answer after the session was taken, or the end of a disconnect or of a failed dial after another
  one was installed (`MobileClient.LiesIffLastWriteLate`).
* Writing and parsing a header is the identity exactly on canonical token names that each have a
  value, and values without line breaks and outer white space (`HeaderText.RoundTripIffWellFormed`).
* The Linux configuration fails for a subnet with host bits, unless it covers the same addresses as
  the address prefix (`NativeRoute.ConfigureMeaning`).

## Model

| member | source | states |
|---|---|---|
| GuiExclusion.SafeStep | gui/main.go:196-375 | every click, received update and background step, a dropped update included, keeps the invariant that ties the session fields to the starter, waiter, live session and queued reports there are |
| GuiExclusion.SafeRun | gui/main.go:196-375 | the invariant holds in every state of every run |
| GuiExclusion.MutualExclusion | gui/main.go:211-289 | in every reachable state, starters outstanding plus sessions not yet done number at most one |
| GuiExclusion.StartGuardMeansQuiet | gui/main.go:211-214 | whenever the guard of `startSession` lets a start through, no starter, waiter, live session or report of an earlier start is left |
| GuiExclusion.StuckStep | gui/main.go:303-310 | a step makes the GUI stuck exactly when it drops a lifecycle update of the start in progress, and no step unsticks it |
| GuiExclusion.StuckIffLost | gui/main.go:303-310 | a run ends stuck if and only if it dropped an update of a start in progress |
| GuiExclusion.LiveSessionHasOneOwner | gui/main.go:234-288 | with nothing lost, a live session is exactly one of: in the hands of its starter, named by a queued update, held in `u.session` |
| GuiRecovery.Flush | gui/main.go:312-375 | frames without clicks empty the queue and leave the background as it is |
| GuiRecovery.Recover | gui/main.go:211-301 | from every safe state that is not stuck some continuation reaches a state in which a start is allowed |
| GuiRecovery.StartAgainIffNotStuck | gui/main.go:211-375 | a start can be reached again if and only if the state is not stuck |
| GuiRecovery.StartAgainIffNothingLost | gui/main.go:303-310 | after any run, a start can be reached again if and only if no update of the start in progress was lost |
| GuiRecovery.StopCanProgress | gui/main.go:291-301 | while a stop is pending, some step that nobody has to be asked for is possible |
| GuiRecovery.StopProgress | gui/main.go:281-301 | no step that loses nothing moves a pending stop away from its end, and every owed step moves it strictly closer or ends it with a start allowed |
| GuiRecovery.StopCompletes | gui/main.go:281-301 | any run without losses that takes more owed steps than the distance passes through a state in which a start is allowed |
| GuiCredit.CreditStep | gui/main.go:303-310 | queued plus owed updates grow by at most the cost of a click, never by a background step, and a step drops an update only when that sum and the cost of the click exceed 32 |
| GuiCredit.BudgetPreventsDrops | gui/main.go:125 | a run whose clicks all leave queued plus owed updates at or below 32 never takes the drop branch |
| GuiCredit.SendEverything | gui/main.go:234-288 | above 32, the background alone has a run that drops an update |
| GuiCredit.OverflowIffOverCredit | gui/main.go:303-310 | the background can overflow the queue if and only if queued plus owed updates exceed 32 |
| GuiOverflow.AddRequest | gui/main.go:361-369 | one ping result also frees the request button, so a frame can add a request to those in flight |
| GuiOverflow.PileUp | gui/main.go:932-998 | for every n some reachable state has n requests in flight |
| GuiOverflow.LossIsReachable | gui/main.go:303-310 | a run from the initial state after which no continuation ever allows another start |
| GuiVTun.ToolsUseVTunSessions | gui/main.go:233-279 | in every reachable state `u.vtun` names a session exactly if the session the GUI holds came from a start clicked in client mode with the tun type `vtun`, and every request and ping under way works on such a session and was asked for by its own button |
| GuiVTun.NoToolsWithoutVTunStart | gui/main.go:932-998 | in a run without such a start `u.vtun` is never set and no request or ping exists |
| GuiDisplay.DisplayIsTruthful | gui/main.go:211-375 | in every reachable state `running` holds exactly with a session, `starting` only without, `stopping` only with one, and the status is the one that belongs to them |
| GuiDisplay.LastIsAnnounced | gui/main.go:312-375 | after a drain `lastEvent` is the text of the last update: its error, its event, or the fixed text of a start or a stop |
| GuiDisplay.LastResultShown | gui/main.go:342-364 | after a drain `resultText` is the last result received |
| GuiDisplay.ResultKept | gui/main.go:312-375 | updates without a result leave `resultText` as it was |
| GuiDisplay.ButtonsFreed | gui/main.go:345-370 | a drain frees both buttons if it received a result or the end of a session, and neither otherwise |
| GuiDisplay.QueueIsBoundedFifo | gui/main.go:234-310 | a report goes to the end of the queue if it holds fewer than 32 and is dropped and counted otherwise, it says what happened, and updates are received from the front |
| GuiDisplay.RejectionQueued | gui/main.go:217-225 | a start for a vtun in server mode changes nothing but queues its rejection |
| GuiDisplay.ClickAnnounced | gui/main.go:211-301 | a click has no effect exactly behind its guard, and otherwise sets its flag and its text and starts its goroutine or stops the session |
| GuiDisplay.OneToolAtATime | gui/main.go:932-998 | with only requests, or only pings, and no stop, at most one is open in any reachable state, and its button is busy until its answer was received |
| GuiSession.DrainRun | gui/main.go:312-375 | receiving updates one by one until the queue is empty is folding them over the fields |
| GuiClose.OrderlyIffHeld | gui/main.go:172-179 | whenever the window is closed, every way the background can go on ends with no session running at the exit, if and only if nothing is left of the latest start or the UI holds its session |
| GuiClose.OrderlyUnlessStarting | gui/main.go:172-179 | a close is orderly whenever the `starting` flag is down |
| GuiClose.WaitedForIffHeld | gui/main.go:172-179 | a live session is sure to be waited for if and only if `u.session` names it; if not, and nothing was lost, it is in the hands of its starter or named in the queue |
| GuiSession.FrameIsSafe | gui/main.go:181-209 | a frame of clicks, then background steps, then a drain with background steps before each update received, keeps the invariant |
| GuiSession.Gui.constructor | gui/main.go:116-130 | a new GUI is in the initial state of the transition system |
| GuiSession.Gui.Enqueue | gui/main.go:303-310 | the update is appended, or with 32 queued it is dropped and counted |
| GuiSession.Gui.StartSession | gui/main.go:211-289 | nothing, a queued rejection, or the flags of a start and one starter: the StartClicked step |
| GuiSession.Gui.StopSession | gui/main.go:291-301 | nothing, or the flags of a stop and the session told to stop: the StopClicked step |
| GuiSession.Gui.RunVTunRequest | gui/main.go:932-969 | the RequestClicked step |
| GuiSession.Gui.RunVTunPing | gui/main.go:971-998 | the PingClicked step |
| GuiSession.Gui.Receive | gui/main.go:315-370 | an update changes the fields in the first of the four ways that fits it |
| GuiSession.Gui.Background | gui/main.go:234-288 | what a starter, waiter, request or ping does next changes the goroutines and the queue as that step of the transition system, and nothing if the step is not possible |
| GuiSession.Gui.ApplyUpdates | gui/main.go:312-375 | whatever the background does before each look at the queue, the calls are a run of background steps and received updates that ends with an empty queue; without it every queued update was applied, in order |
| GuiSession.Gui.HandleActions | gui/main.go:196-209 | any numbers of clicks are a run of click steps in the order start, stop, request, ping |
| GuiSession.Gui.Frame | gui/main.go:181-209 | a frame keeps the invariant behind mutual exclusion and empties the queue whatever the background does during its drain; with the background quiet it is its clicks followed by the drain |
| RunnerSafety.InvStep | runner/session.go:26-76 | every step keeps the account of the wait group (its counter is the number of unfinished goroutines), of promised and finished work, and of what the starting thread has done |
| RunnerSafety.WaitGroupSound | runner/session.go:53-73 | the counter is never negative, never rises from zero while `Wait` may be looking at it, and at zero no registered function has anything left to do |
| RunnerSafety.WaitMeansFinished | runner/session.go:70-99 | `done` is closed at most once; once closed the context was cancelled, every goroutine has finished and every resource of the session, each accepted SOCKS connection included, was closed, with each server loop returned |
| RunnerSafety.HeldStep | runner/session.go:53-176 | every step keeps: whatever closes the device, the link, the connection, a server or the listener gets past its wait only once the context is cancelled |
| RunnerSafety.ClosedOnlyAfterCancel | runner/session.go:53-176 | in every run with a ready device, none of device, SOCKS listener, HTTP server, connection and server is closed, and no connected link stopped, before the context is cancelled, and the context of a started session is cancelled only from outside |
| RunnerSafety.StartOutcome | runner/session.go:47-76 | `Start` returns a session exactly if the device is ready and the peer reached, and panics exactly if `TunFromCfg` does |
| RunnerOrder.ClosedInOrder | runner/session.go:119-166 | in every run the link is stopped before the connection or the server is closed, and a SOCKS connection is served before it is closed |
| RunnerSafety.DoneOnlyAfterCancel | runner/session.go:53-85 | `done` is closed only in runs in which `Stop` was called or the parent context ended before |
| RunnerSafety.NothingAfterDone | runner/session.go:70-73 | after `done` no goroutine is created, no effect happens, no connection is accepted and `done` is not closed again |
| RunnerSafety.FailedStartLeavesNothing | runner/session.go:58-68 | when `Start` returns the error of `startClient` or `startServer`, the context is cancelled, device, listener, servers and connections are closed, a server's link is stopped, and every goroutine has finished |
| RunnerSafety.FailedSetup | runner/session.go:47-51 | when `TunFromCfg` delivers no device, no goroutine is registered, the context is cancelled unless it panicked, and what it left open stays open |
| DeviceSetup.DeviceLeftOpenIff | device/device.go:97-285 | over every run of a start that fails at any point, the device is left open exactly in the listed situations of the configuration, the platform and the logger |
| DeviceSetup.LeakIsReachable | runner/session.go:47-51 | in each of these situations a run ends with the device open |
| DeviceSetup.HostNameLeaks | device/device.go:236-246 | the HTTP address `localhost` is such a configuration wherever the default device can be built |
| DeviceLaws.DefaultAddresses | device/device.go:127-133 | without a configured address the devices have 10.200.1.3 and 10.200.1.4 |
| DeviceLaws.ConfiguredAddress | device/device.go:139-145 | a configured IPv4 address is the device's own |
| DeviceLaws.LoopbackIs127 | device/device.go:248 | the IPv4 loopback addresses are those of 127.0.0.0/8 |
| DeviceLaws.DefaultHttpAddr | device/device.go:247-252 | with nothing configured the HTTP server listens on port 80 of 10.200.1.3 |
| DeviceLaws.ConfiguredHttpAddr | device/device.go:236-246 | a configured IPv4 address is listened on at its port, or at port 80 if it has none, and the setup fails exactly if that is refused |
| DeviceLaws.NothingToListenOnIff | device/device.go:246-252 | without an HTTP address the zero address is used exactly for an IPv6 or loopback device |
| DeviceLaws.CommandsRunAll | device/native_linux.go:53-85 | the native device is configured exactly if every command of its list ran |
| DeviceLaws.DefaultsNeedNoRoute | device/device.go:20-25 | the default address and subnet need no explicit route |
| DeviceSetup.Builder.VTunFromCfg | device/device.go:127-155 | a device on the one local address is built exactly when the configured address reads and the library builds it |
| DeviceSetup.Builder.HttpAddr | device/device.go:235-252 | fails exactly for an unreadable text, is the zero address exactly when nothing is configured and the device's address is IPv6 or loopback, and otherwise the address named, port 80 by default |
| DeviceSetup.Builder.VTunHttpFromCfg | device/device.go:224-285 | delivers and registers its two goroutines exactly when the device is built and the server can listen, and never closes the device |
| DeviceSetup.Builder.VTunSocksFromCfg | device/device.go:157-222 | delivers and registers exactly when the device is built and the local address listens, and closes a device it does not deliver |
| DeviceSetup.Builder.NativeFromCfg | device/native_linux.go:18-88 | delivers exactly when all commands run, panics with the device open exactly when one fails on unix under a panicking logger, and closes the device in every other failure |
| DeviceSetup.Builder.TunFromCfg | device/device.go:97-125 | its three endings, whether it built and closed a device, and the goroutines it registered are those the runs of `Start` begin with |
| RunnerShutdown.RunBound | device/device.go:187-219 | in every run the steps taken and the work left add up to the work at the start plus four for each accepted connection |
| RunnerShutdown.ClosedListenerBound | device/device.go:187-199 | once the listener is closed no connection is accepted and the work left bounds the rest of the run |
| RunnerShutdown.ShutdownProgress | device/device.go:187-219 | a cancelled session that is not complete always has a step that is bound to happen |
| RunnerShutdown.ShutdownCompletes | runner/session.go:53-73 | such steps alone take it to its end |
| RunnerShutdown.BoundRun | device/device.go:187-219 | every run of such steps uses up one unit of work with each, and until the end one more is possible |
| RunnerShutdown.CancelledSessionEnds | runner/session.go:26-99 | wherever a run is cancelled, every run of such steps is at most as long as the work left, and when none is left `Start` has returned or panicked, every goroutine has finished, and `done` is closed if and only if `Start` succeeded |
| VTunSession.DoneMeansClosed | clientcore/vtun_client.go:112-147 | in any run of stops and closer steps the cancel function is called at most once, and `done` is closed at most once, only after a stop or the end of the parent, with link, connection and device closed in this order |
| VTunSession.CancelledEnds | clientcore/vtun_client.go:112-135 | after a stop the closer can always move until `done` is closed, which its fifth move does |
| MobileClient.PlacesStep | mobilelib/client.go:36-134 | a section changes the places of a session only by creating it and by overwriting it |
| MobileClient.StoppedAtMostOnce | mobilelib/client.go:72-85 | in every interleaving a session is stopped at most once, two disconnects never hold the same one, and one being stopped is not current |
| MobileClient.OrphanIffOverwritten | mobilelib/client.go:36-70 | some session is neither held, current nor stopped if and only if some install replaced a session |
| MobileClient.OrphanForever | mobilelib/client.go:154-165 | no continuation stops an orphaned session |
| MobileClient.TwoConnectsOrphan | mobilelib/client.go:36-70 | two overlapping connects orphan a session |
| MobileClient.LiesStep | mobilelib/client.go:36-178 | for each of the three claims of a status about the session, a section leaves it false if and only if it writes it late or it was false and the section does not write the status |
| MobileClient.LiesIffLastWriteLate | mobilelib/client.go:36-178 | after any interleaving, a claim of the status is false if and only if the last section that wrote the status was late |
| MobileClient.SettledIffLastWriteInTime | mobilelib/client.go:36-178 | once all calls have returned, status and session agree if and only if the last write of the status was not late, and no intermediate status remains |
| MobileClient.ConnectedWithoutSession | mobilelib/client.go:87-115 | the run: a request that answers after a disconnect leaves "connected" with no session |
| MobileClient.IdleWithSession | mobilelib/client.go:72-77 | the run: a disconnect that ends after another connect leaves "idle" with a session |
| MobileGate.GatedStep | android/app/src/main/java/io/github/asciimoth/gonnectvpnexample/MainViewModel.kt:129-155 | every step behind the gate keeps: one call in flight, no orphan, and session and status that fit where that call is |
| MobileGate.GateSerializes | android/app/src/main/java/io/github/asciimoth/gonnectvpnexample/MainViewModel.kt:129-155 | behind the gate no two calls overlap and at most one session is unstopped; when not busy the status shown is the client's, it says whether a session exists, and every other session was stopped exactly once |
| MobileGate.PerformedIsARun | mobilelib/client.go:36-134 | a call that nothing interrupts ends as the source says: a connect is refused, fails with its message or installs the new session; a disconnect stops the current session; a request or ping needs a session, keeps it, and ends in "connected" or in its own failure |
| MobileGate.Client.Check | mobilelib/client.go:37-44 | passes exactly without a session, and then sets the status |
| MobileGate.Client.TakeSession | mobilelib/client.go:154-165 | hands out the session and leaves none |
| MobileGate.Client.Connect | mobilelib/client.go:36-70 | refused with a session, otherwise installs the dialled session or reports the failure |
| MobileGate.Client.Disconnect | mobilelib/client.go:72-85 | the current session, if any, is stopped and forgotten and the status is idle |
| MobileGate.Client.Use | mobilelib/client.go:87-134 | needs a session, keeps it, and sets the status by the answer |
| MobileGate.MainViewModel.LaunchAction | android/app/src/main/java/io/github/asciimoth/gonnectvpnexample/MainViewModel.kt:129-145 | nothing while busy; otherwise one whole call and a refresh, keeping status and session in agreement |
| Transport.Conn.Read | transport/transport.go:117-134 | skips text messages, delivers the next binary one cut to the room there is, changes only `bufs[0][offset..offset+size)` and `sizes[0]`, or reports the wire's error having changed neither |
| Transport.Conn.Write | transport/transport.go:136-146 | each packet becomes one binary message in order; on an error the result is the number already sent |
| Transport.FifoStep | transport/transport.go:117-146 | every write, read and foreign text message keeps: in flight is what was written and not yet received |
| Transport.TransportIsFifo | transport/transport.go:117-146 | in every interleaving packet k received is packet k written, cut only to its reader's room, and no packet is lost, merged or repeated |
| ConnEvents.Conn.Close | transport/transport.go:160-163 | with a full channel it waits and changes nothing; otherwise one more `EventDown` is queued and the WebSocket closed |
| ConnEvents.Conn.Receive | transport/transport.go:169-171 | the events come out in the order they were sent |
| ConnEvents.CloseWaitsIff | transport/transport.go:52-53 | after any run of closes and receives the events received and left are one `EventUp` and one `EventDown` per close, and a further close waits if and only if 41 more closes ran than events were received |
| LoggingTun.GuardIsExact | device/device.go:66-72 | the guard passes if and only if the bounds, computed without wrapping, lie inside the buffer |
| LoggingTun.InspectedExactly | device/device.go:63-83 | packet m is looked up with its own bytes exactly if it is one of the device's packets, has a buffer and a size, and lies inside its buffer; in order and once each |
| LoggingTun.Read | device/device.go:52-85 | returns the device's own results; after an error nothing is looked up, otherwise exactly those packets, and no slice is out of bounds |
| Cidr.AndMask | device/native_windows.go:172-188 | ANDing an address with the mask of p ones clears exactly its last w - p bits |
| Cidr.CoversIsBlock | device/native_route.go:14 | the addresses that share the first bits of a prefix are the interval of its size that begins at its masked address |
| Cidr.MaskedDecidesCover | device/native_route.go:14 | masked prefixes are equal if and only if the prefixes cover the same set of addresses, for width 32 and width 128 |
| Cidr.MaskedKeepsCover | device/native_route.go:14 | masking is idempotent and keeps the set of addresses |
| NetipText.ParsePrint | device/native_windows.go:130-142 | a dotted quad reads back as the number it was printed from |
| NetipText.PrintParse | device/native_windows.go:130-142 | a dotted quad that reads is exactly the text of the number read |
| NetipText.PrefixRoundTrip | device/native_route.go:6-13 | every IPv4 prefix reads back from its text |
| NetipLaws.PrefixOfAddr | device/native_route.go:6-13 | an address text with a length is a prefix exactly if the address reads and the length is at most 32 for IPv4 and 128 for IPv6 |
| NetipLaws.PrefixExact | device/native_windows.go:130-142 | the texts that read as IPv4 prefixes are exactly the printed ones |
| NetipLaws.PlainAddrPort | device/device.go:237 | without brackets an address with a port is an IPv4 address and a port below 65536 |
| NetipLaws.BracketedAddrPort | device/device.go:237 | in brackets it is an IPv6 address and such a port |
| NetipLaws.AddrPortRoundTrip | device/device.go:236-246 | every IPv4 address and port read back, and the address alone does not read as one with a port |
| NetipText.ParsedIsValid | device/native_route.go:6-13 | every prefix that parses has an address and a length within its family's width |
| NativeRoute.RouteDecision | device/native_route.go:5-15 | for all texts, no route is added if and only if both parse and cover the same addresses |
| NativeRoute.ConfigureMeaning | device/native_linux.go:53-85 | for two IPv4 prefixes the commands succeed if and only if the subnet has no host bits or covers what the address does; then the interface is up, exactly the addresses of both are routed and no route is installed twice |
| NativeRoute.HostBitsFail | device/native_linux.go:53-85 | the subnet 2.2.2.2/8, which has host bits, next to the address 1.1.1.1/8 makes the configuration fail |
| NativeRoute.Interface.Configure | device/native_linux.go:53-87 | the commands run in order until one fails, the route among them as decided |
| NativeRoute.ShiftedOnes | device/native_windows.go:180 | the wrapped 32-bit shift of all ones is 2^32 - 2^(32-p) |
| NativeRoute.MaskText | device/native_windows.go:172-188 | for every integer the mask text reads back as 2^32 - 2^(32-p), p clamped to 0..32 |
| NativeRoute.MaskGrows | device/native_windows.go:172-188 | masks are strictly increasing in p, so different lengths have different texts |
| NativeRoute.WindowsAcceptsIPv4 | device/native_windows.go:130-142 | exactly the texts of IPv4 prefixes are accepted, and their length is kept |
| NativeRoute.WindowsTextsAgree | device/native_windows.go:39-87 | the address text ANDed with the mask text is the network address the route decision compares |
| HeaderText.ParseHeaderLines | clientcore/vtun_client.go:207-222 | the loop returns what reading the lines in order into an empty header gives, or the first bad line |
| HeaderText.ParseIntoMerges | clientcore/vtun_client.go:207-222 | reading lines into a header is reading them alone and appending the values per key |
| HeaderText.ParseHomomorphism | clientcore/vtun_client.go:207-222 | two texts joined by a newline fail if and only if one of them fails, and otherwise give the per-key concatenation of their results |
| HeaderLaws.LineWithoutColon | clientcore/vtun_client.go:209-217 | a line without a colon is skipped if it is blank and otherwise the error, trimmed |
| HeaderLaws.LineWithColon | clientcore/vtun_client.go:214-219 | a line is cut at its first colon, both parts are trimmed, and the name is canonical |
| HeaderLaws.FailsIffBroken | clientcore/vtun_client.go:207-222 | a text is accepted exactly if each of its lines is blank or has a colon; otherwise the error is the first other line, trimmed |
| HeaderLaws.CanonicalForm | clientcore/vtun_client.go:219 | a valid name's key has capital letters at the start and after hyphens and small ones elsewhere |
| HeaderLaws.SameKeyIff | clientcore/vtun_client.go:219 | two valid names share a key exactly if they differ in the case of letters only |
| HeaderLaws.TokenChars | clientcore/vtun_client.go:227 | the characters of valid names are visible ASCII without the delimiters of section 5.6.2 of RFC 9110 |
| HeaderLaws.SpaceChars | clientcore/vtun_client.go:210 | what is trimmed is the white space of Unicode |
| HeaderLaws.CleanIs | clientcore/vtun_client.go:207-231 | a written value comes back without outer white space and with line breaks as spaces |
| HeaderLaws.NamesAreWritten | clientcore/vtun_client.go:207-231 | every value of every valid name is written and comes back under the canonical name |
| HeaderLaws.ResponseForm | clientcore/vtun_client.go:224-231 | the status line, `name: value` ended by carriage return and line feed, an empty line, and the body |
| HeaderText.Request.AddHeaders | web/wasm/main.go:182-194 | adds to the request's own header what the text parses to, or reports the same bad line |
| HeaderText.WebRequestHeader | web/wasm/main.go:171-194 | on a new request the loop of the web client accepts the same texts as `parseHeaderLines`, with the same result |
| HeaderText.FieldLineRead | clientcore/vtun_client.go:208-219 | a written field line reads as its name and its value with outer white space removed, colons inside kept |
| HeaderText.WriteThenParse | clientcore/vtun_client.go:207-231 | for any header, parsing the written text gives the header that was really sent: invalid names left out, values cleaned, per-key order kept |
| HeaderText.RoundTripIffWellFormed | clientcore/vtun_client.go:207-231 | parsing the written text gives back the same header if and only if it is well formed |
| HeaderText.ResponseDecodes | clientcore/vtun_client.go:224-231 | splitting the response text at the first line feed and the first empty line gives the status, the header block and the exact body exactly when the status has no line feed |
| Text.TrimOf | clientcore/vtun_client.go:210 | trimming removes exactly the outer white space |
| Text.LinesConcat | clientcore/vtun_client.go:209 | the lines of two texts joined by a newline are the lines of the one and then the other |
| Text.LinesSingle | clientcore/vtun_client.go:209 | a text without line feed is one line |

## Left out

* The threads of `runner.Start`, its wait group, `once` and `done` are modelled on values: they are a
  transition system over every interleaving, which a class with sequential methods cannot show.
  The same holds for the goroutines of the GUI and the closer of the vtun session.
* GuiSession.Gui.Frame: no goroutine acts between two clicks of the same frame; for steps in any order
  the invariant is `GuiExclusion.SafeRun`.
* A session inside the GUI is one starter, one waiter and its end; a failing `Start` is one step. That
  a session ends only after it was cancelled is `RunnerSafety.DoneOnlyAfterCancel` and
  `VTunSession.DoneMeansClosed`. The cancellation of the root context at window close is part of
  `GuiClose`, where any session may end without `Stop`.
* The error and result texts of the view model, and its settings.
* `Start` before its context exists: validation and the check for administrator rights.
* Transports accepted on `/ws-vpn`: they are not registered on the wait group, so nothing is claimed
  about when they close, nor about which client `p2p.SetA` replaces.
* Closing a listener or a server is taken to end its loop, and every other call to return.
* DeviceSetup.DeviceLeftOpenIff: whether the libraries build a device, listen, create an interface and
  run a command is a parameter; that `LocalAddrs` of a virtual device gives exactly the address it was
  built with is assumed (`Builder.HttpAddr` requires it). In particular it is not claimed what the vtun library does with the zero
  address. The zone of an IPv6 text is not kept. After a panic the program ends or its caller recovers,
  which is not part of this model. The tun type `native` on a platform that is neither unix nor Windows
  builds nothing.
* MobileClient.StoppedAtMostOnce: `onCleared`, which disconnects outside the gate, is one more
  interleaved disconnect there and is excluded from MobileGate.
* The texts of the mobile client's statuses beyond the wrapped error message, and its defaults for
  empty settings.
* NativeRoute.ConfigureMeaning: that adding an address installs the route of its masked prefix, and
  that a route with host bits, a duplicate, or on an interface that is down is refused, is assumed of
  the kernel; the first is what the program's own log message says. For an address with a length of 32 Linux installs no such route in its main
  table, so there the model routes one address more. What a failed command does to the device is in
  `DeviceSetup`. Texts that only the `ip` tool accepts are not covered.
* The Windows commands themselves and `getInterfaceIndex`, which reads the output of `netsh`.
* NetipText.ParsedIsValid: the reader of IPv6 texts is a parameter that may be any function into
  128-bit numbers, so the route decision holds for all of them.
* HeaderText.WriteThenParse: texts are decoded characters, so invalid UTF-8 is not covered. The writer
  is Go's `Header.Write`, whose source is not part of this repository; the order of keys is any
  listing without repetition.
* Reading from and writing to the WebSocket under a cancelled context, beyond the error each reports.
* ConnEvents.Conn.Close: a close that waits is not resumed when a slot gets free; it is taken as a call
  made again then. Dialling and accepting are not modelled.
* `NewVTunClientSession` before the session exists: the checks of its configuration and its dial.
* `loggingTun.Write`, which logs after a plain call, and the owners that are looked up.
* The log windows of 200 and 600 lines and the log texts.
* `AndroidVPNClient` and its session, near copies of the modelled ones; `GonnectVpnService`; the rest
  of the web client; ping packets; drawing; static files; flags.
