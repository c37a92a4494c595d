# Verified model of the monkas network monitor

A Dafny 4.11 model of an rtnetlink monitor and of two algorithms it ships with, and proofs about them.

The monitor asks the kernel for all links, addresses and routes through numbered dump requests, repeats a
request whose dump fails, and then follows change notifications. It folds link, address and route
messages into one tracker per interface. Flags on each tracker say which fields have changed since
the last sweep and so which callbacks each subscriber is due. The model covers

- `Types.dfy`, `FlagSets.dfy`, `FlagNames.dfy`, `EthernetText.dfy`: values, the enum-indexed flag set with its
  text form and naming tables, and the printed ethernet address;
- `Trackers.dfy`: the per-interface tracker, as a class and as a function of the calls made on it;
- `AttributeTables.dfy`, `Messages.dfy`, `WireFormat.dfy`: attribute lists, what a message asks of the cache, and
  the sender's side of it;
- `Caches.dfy`: the tracker map, the last-writer reading of its history, and repeated dumps;
- `Subscriptions.dfy`, `Sweeps.dfy`, `Mirrors.dfy`, `Accounting.dfy`: the monitor as its subscribers see it, and
  invariants of whole runs;
- `Handling.dfy`, `ChangeFlags.dfy`, `Reports.dfy`, `SubscriptionHistory.dfy`: one message from the wire to the cache and
  the logs, when a change flag is set, which callbacks are made and which are not, and who is subscribed to what;
- `MulticastGroups.dfy`, `DumpProtocol.dfy`, `Failures.dfy`, `Enumerations.dfy`: the groups joined, requests, retries, sequence numbers, phases, stopping and the receive
  loops, over a script of what the socket delivers;
- `NetworkMonitors.dfy`, `LiveMonitors.dfy`: the monitor object, whose methods are proved against all of the
  above; `Valid` ties the object to the run of operations that led to it, so every theorem about runs
  is a theorem about the object;
- `Wildcards.dfy`, `SmallStrings.dfy`: the glob matcher and the small-buffer string of the vendored doctest header.

`dafny verify dfyconfig.toml` checks everything.

## How the environment is modelled

What the socket delivers is a script of receipts: datagrams of messages, or a receive call that returns
nothing. A datagram holds at least one message. A message carries its sequence number and is data, the
end of a dump, or an error with its errno; an error message without an error counts as the end of a dump, as libmnl
answers it. libmnl's rule that two nonzero sequence numbers must be equal
is part of the model, and so is its rule that a callback answering STOP ends the datagram. A retry throws away the
script up to the first receive call that returns nothing. The script also says during which messages and
sweeps a callback calls stop(); every combination is allowed. Where the script ends the source waits forever and the
model stops observing. `pfatal` sets `aborted`. Using the socket after stop() took it away during the
enumeration, where the source passes a null socket on, sets it too. Subscribers' callbacks are appended to one log
per subscriber, because the source's order among subscribers is that of an unordered map. Header
fields of requests are those of section 2.3.2 of RFC 3549.

The constants `IFLA_MAX`, `IFA_MAX` and `RTA_MAX` depend on the kernel headers and are parameters of the configuration.
Four-byte attributes are read as on a little-endian host.

Three properties one might expect do not hold as such, and the exact conditions are proved instead. The
preferred address family is checked on the message header only. Over a run the tracked addresses keep to it if
and only if every accepted NEWADDR carries a payload of that family (`Accounting.ConfinedIff`, with a failing run in
`Accounting.ConfinementFails`). After stop() from a callback the process still aborts if and only if libmnl
reports an error for the rest of the same datagram (`DumpProtocol.StopWhileHandling`, with such a datagram in
`DumpProtocol.StopCanAbort`). And a change flag is set not only when its field changes: exactly an all-zero MAC or
broadcast set, and a gateway of 0.0.0.0 cleared once more, set it as well (`ChangeFlags.FlagIffChanged`, with
`ChangeFlags.ClearingAgainFlags`).

## Model

| member | source | states |
|---|---|---|
| Mirrors.MirrorIsFaithful | src/monitor/NetworkMonitor.cpp:110-155 | subscriber refinement over every run of messages, subscription calls and sweeps: the mirror replayed from a subscriber's callbacks knows every tracked interface it subscribes to and agrees with the cache on each field whose change flag is not set |
| Mirrors.MirrorIsExactAfterSweep | src/monitor/NetworkMonitor.cpp:585-600 | right after a sweep that mirror agrees on all seven fields |
| Mirrors.MirrorKnowsTracked | src/monitor/NetworkMonitor.cpp:615-627 | the mirror of a subscriber that misses no message has an entry for exactly the tracked interfaces |
| Mirrors.MirrorIsCacheAfterSweep | src/monitor/NetworkMonitor.cpp:557-627 | such a subscriber, subscribed to all that is tracked, holds exactly the data of the cache after a sweep, as one map equality |
| Mirrors.SweepMakesExact | src/monitor/NetworkMonitor.cpp:557-600 | one sweep turns agreement outside the set flags into full agreement and leaves no flag set |
| Mirrors.FullReportMakesExact | src/monitor/NetworkMonitor.cpp:602-613 | a new or changed subscription is brought up to date on every field at once, whatever its mirror held |
| Mirrors.UpdateKeepsAgreement | src/monitor/NetworkInterfaceStatusTracker.cpp:53-179 | whatever a message changes in a tracker it also flags: agreement on unflagged fields survives every update |
| Reports.SweepTellsWhatChanged | src/monitor/NetworkMonitor.cpp:557-600 | for every run and subscriber, what the sweep adds to its log: each field of each tracked interface it subscribes to exactly once if the bit of the field stands and not at all otherwise, nothing of any other interface, nothing to anyone not subscribed; with the name and value of the moment, by index and in the source's order of fields |
| Reports.SweepClearsFlags | src/monitor/NetworkMonitor.cpp:585-600 | a sweep takes every flag of every tracker down, and with no subscriber leaves every flag standing; data and subscriptions stay |
| Reports.ChoosingTellsAll | src/monitor/NetworkMonitor.cpp:110-139 | for every run, a new or changed subscription: the subscriber is told all seven fields of every tracked interface in it exactly once and nothing else, its interfaces are stored, other logs and subscriptions and all trackers stay |
| Reports.OtherCallsTellNothing | src/monitor/NetworkMonitor.cpp:110-155 | a subscription to nothing, an update of an unknown subscriber or of nobody, an ended subscription: no log, tracker or counter changes |
| SubscriptionHistory.SubscribedIffOpen | src/monitor/NetworkMonitor.cpp:110-155 | over every run: s is subscribed if and only if it has subscribed to something and neither unsubscribed nor updated to nothing since |
| SubscriptionHistory.SubscriptionsAreHistory | src/monitor/NetworkMonitor.cpp:110-155 | and it is subscribed to exactly the interfaces the last subscription or update of it named |
| Handling.LinkIsStored | src/monitor/NetworkMonitor.cpp:363-420 | for every run, what a link message does to the data of all trackers and to all logs, by what it carries: nothing for hardware not wanted; a removal, reported even if untracked; or each carried value stored, the rest kept, and a new interface announced |
| Handling.AddressIsStored | src/monitor/NetworkMonitor.cpp:426-479 | for every run, what an address message does to the data of all trackers: exactly its record added or removed, the gateway 0.0.0.0 if no IPv4 record is left, nothing if untracked or of a family not preferred; no log changes |
| Handling.RouteIsStored | src/monitor/NetworkMonitor.cpp:481-521 | for every run, what a route message does to the data of all trackers: the gateway set, or 0.0.0.0, or nothing, by family, preference, interface, gateway and link-down bit; no log changes |
| Handling.OtherIsIgnored | src/monitor/NetworkMonitor.cpp:356-360 | a message of another type changes no data and no log |
| Mirrors.TrackedIffLastAdded | src/monitor/NetworkMonitor.cpp:363-378 | for a subscriber that misses no message an index is tracked exactly when its last lifecycle callback was Added |
| Mirrors.AddedAndRemovedAlternate | src/monitor/NetworkMonitor.cpp:615-627 | between two Added callbacks for one index there is always a Removed one |
| Subscriptions.CacheIsHistory | src/monitor/NetworkMonitor.cpp:334-521 | over every run the cached data are the fold of the decoded messages; subscriptions and sweeps never touch them |
| Caches.ApplyRefinesOverwriting | src/monitor/NetworkInterfaceStatusTracker.cpp:53-179 | the guarded, flag-setting, counting setters store what unconditional overwriting stores |
| Caches.TrackedIffAlive | src/monitor/NetworkMonitor.cpp:397-404 | an index is tracked exactly when the last accepted link message about it was a NEWLINK |
| Caches.HistoryDecides | src/monitor/NetworkMonitor.cpp:404-479 | name, link flags, state, MAC, broadcast, each address record and whether a gateway is known: each is the value of the last write since the tracker was created, or the default if there was none |
| Caches.HistoryDecidesGateway | src/monitor/NetworkMonitor.cpp:499-520 | the gateway is none before the first accepted gateway route, then the last one accepted, or 0.0.0.0 if it was cleared since by a route deletion or by removing the last IPv4 record |
| Caches.RetriedDumpIsHarmless | src/monitor/NetworkMonitor.cpp:303-323 | for a dump of NEWLINK, of NEWADDR or of NEWROUTE messages: whatever messages of it were handled before, in any order and number, handling it whole stores the same data as handling it once |
| Caches.RetryIsHarmless | src/monitor/NetworkMonitor.cpp:380-521 | the same for what the messages decode to |
| Enumerations.PhaseStoresDump | src/monitor/NetworkMonitor.cpp:245-259 | the same for the operations of one enumeration phase of the monitor: failed attempts that delivered only messages of the dump leave no trace |
| Enumerations.EnumerationStoresDumps | src/monitor/NetworkMonitor.cpp:97-108 | after an enumeration with any number of retries the cache holds the three dumps read once each |
| DumpProtocol.RunKeepsProtocol | src/monitor/NetworkMonitor.cpp:97-332 | for every script: requests are whole dump requests numbered in turn, never go back a phase, start with GETLINK; the send buffer holds the last of them under the current number and for the current phase; packets sent, retries and STOPs add up |
| DumpProtocol.ReceiveLoopAdvances | src/monitor/NetworkMonitor.cpp:192-221 | one call of the receive loop keeps that invariant, never goes back a phase and only appends requests |
| DumpProtocol.EnumerateLoopAdvances | src/monitor/NetworkMonitor.cpp:104-106 | so does the enumeration loop |
| DumpProtocol.PhaseEndKeepsProtocol | src/monitor/NetworkMonitor.cpp:260-274 | each STOP advances the phase by exactly one and opens the next dump |
| DumpProtocol.RetryRepeatsCurrentDump | src/monitor/NetworkMonitor.cpp:303-323 | a retry always finds the current phase's dump request in the send buffer and sends it again under the next number, so skipping the retry cannot happen |
| DumpProtocol.FinishedLogShape | src/monitor/NetworkMonitor.cpp:260-274 | a finished enumeration has sent one or more GETLINK, then GETADDR, then GETROUTE, three plus the retries in all, after three STOPs |
| DumpProtocol.NextNumber | src/monitor/NetworkMonitor.cpp:325-332 | incrementing with wrap-around and skipping zero yields the closed form ((k-1) mod (2^32-1)) + 1 for the k-th request |
| DumpProtocol.NumbersDistinct | src/monitor/NetworkMonitor.cpp:325-332 | requests less than 2^32-1 apart have different numbers |
| Failures.FailureRepeatsOrKills | src/monitor/NetworkMonitor.cpp:43-55 | while a dump is outstanding, a datagram that ends in an error or a foreign reply: what stands before is handled; the process dies unless the errno is 4, 11, 16 or 71 (a foreign reply counts as 71), and with these exactly the same dump is requested again under the next number |
| Failures.DumpEnds | src/monitor/NetworkMonitor.cpp:260-274 | a datagram that ends the dump: what stands before is handled and the next dump is requested, type 22, then 26, then none and the enumeration is over |
| Failures.EndWhileWatchingKills | src/monitor/NetworkMonitor.cpp:254-281 | after the enumeration the end of a dump or any error kills the process while the socket is open |
| Failures.DrainedSkips | src/monitor/NetworkMonitor.cpp:305-307 | a retry throws away every datagram up to the first receive call that returns nothing, and no more |
| DumpProtocol.StaleReplyRefused | src/monitor/NetworkMonitor.cpp:205-214 | during enumeration a datagram that starts with a reply to an earlier request of that window is refused, nothing is handled, and the dump is requested again |
| DumpProtocol.StaleReplyNeverHandled | src/monitor/NetworkMonitor.cpp:205-211 | wherever in a datagram such a reply stands and whatever callbacks do before it, neither it nor anything behind it is handled; all that stands before it is, unless something else ends the datagram |
| DumpProtocol.PhaseCompletes | src/monitor/NetworkMonitor.cpp:245-284 | a phase consumes exactly its part of the script, however many retries it holds, and leads to the next phase |
| Enumerations.EnumerationCompletes | src/monitor/NetworkMonitor.cpp:97-108 | the enumeration ends on every script that answers each dump after finitely many retryable errors, consumes exactly those receipts, three STOPs and three requests plus retries |
| DumpProtocol.StopWhileHandling | src/monitor/NetworkMonitor.cpp:180-221 | stop() from a callback during a message: nothing later is handled, no request is sent, nothing more is received, at most one further pass over the old datagram; the process dies exactly when libmnl reports an error for the rest of that datagram |
| DumpProtocol.StopCanAbort | src/monitor/NetworkMonitor.cpp:245-257 | a two-message datagram, a stopping message and an ENOBUFS error, that ends so |
| DumpProtocol.StopWhileSweeping | src/monitor/NetworkMonitor.cpp:212-220 | stop() from a callback of the sweep: the same after the whole datagram, with exactly one further pass and no abort |
| Enumerations.RunAfterEnumerating | src/monitor/NetworkMonitor.cpp:97-101 | run on a monitor that has been enumerated before requests nothing again |
| DumpProtocol.RunUntilStop | src/monitor/NetworkMonitor.cpp:175-190 | the change loop over any quiet receipts followed by a datagram that stops the monitor, in a message or in the sweep: everything before is handled in turn, no request is sent, the loop ends, the rest of the script is untouched |
| Enumerations.RunReturnsAfterStop | src/monitor/NetworkMonitor.cpp:163-190 | run from start to stop: on three answered dumps with any number of retries, quiet receipts and a stopping datagram, run returns having handled exactly these, with three requests plus the retries and the rest of the script untouched |
| Accounting.StatisticsAddUp | src/monitor/NetworkMonitor.cpp:339-495 | messages received are the link, address, route and unexpected ones; messages discarded are exactly the refused ones, never more than the first three; seen plus unknown attributes are all attributes of the messages that were parsed |
| Accounting.MessageCounts | src/monitor/NetworkMonitor.cpp:339-495 | for every run, what one message adds to each of the seven counters, by its kind, hardware, family, tracked index and preference |
| Accounting.GatewayIsConfined | src/monitor/NetworkMonitor.cpp:481-521 | in every reachable state a gateway is IPv4 if there is one, and under the IPv6 preference there is none |
| Accounting.ConfinedIff | src/monitor/NetworkMonitor.cpp:426-478 | over every run: all tracked records have the preferred family in every state of it if and only if every NEWADDR accepted in it carries a payload of that family |
| Accounting.AdditionConfinedIff | src/monitor/NetworkMonitor.cpp:434-475 | one accepted NEWADDR keeps the records of its tracker within the preferred family exactly when its payload has that family |
| Accounting.AddressesAreConfined | src/monitor/NetworkMonitor.cpp:434-478 | so with address messages whose header and payload agree every tracked record has the preferred family, in every reachable state |
| Accounting.ConfinementFails | src/monitor/NetworkMonitor.cpp:439-471 | whatever the table sizes, a two-message run with an IPv6 header and no IPv6 payload leaves the preferred family IPv6 |
| WireFormat.LinkRoundTrip | src/monitor/NetworkMonitor.cpp:380-420 | a link message is read as exactly the name, flags, state, MAC and broadcast its sender put in, wherever these and any other attributes stand; a deletion as the name, or unknown; hardware other than 1 and 801 is skipped unless wanted |
| WireFormat.AddressRoundTrip | src/monitor/NetworkMonitor.cpp:426-478 | an address message, added or deleted, is read as exactly the record its sender meant, for both families, with flags from the attribute or else from the header, cut to twelve bits, whatever other attributes it carries; with a preference, families other than 2 or 10 are skipped |
| WireFormat.RouteRoundTrip | src/monitor/NetworkMonitor.cpp:481-520 | a route message of family 2 over an interface is read as that interface's new gateway, or its removal if the route with it goes or bit 4 of the flags is set; other families, an IPv6 preference and no interface are skipped |
| AttributeTables.GettersNeedExactLength | src/monitor/Attributes.cpp:108-150 | a getter answers exactly for payloads of its one length, with those bytes; a string ends before its first NUL |
| AttributeTables.SlotHoldsLast | src/monitor/Attributes.cpp:82-99 | a slot is empty only if no attribute of its type came, otherwise it holds the last one |
| AttributeTables.AttributeTable.ParseAttribute | src/monitor/Attributes.cpp:82-99 | a known type replaces its slot and is counted as seen, an unknown one only counts as unknown |
| AttributeTables.AttributeTable.Parse | src/monitor/Attributes.cpp:65-75 | parsing a list leaves every slot at its last attribute; seen and unknown grow by the whole list |
| Trackers.FlagConservation | src/monitor/NetworkInterfaceStatusTracker.cpp:36-46 | over every sequence of calls: flags set minus flags cleared is the number of flags standing, so some flag stands exactly when it is positive |
| ChangeFlags.FlagIffChanged | src/monitor/NetworkInterfaceStatusTracker.cpp:36-179 | for every state, call and flag: the flag stands afterwards if and only if it stood before, its field differs, or the call set an all-zero MAC or broadcast or cleared a gateway that was 0.0.0.0 already |
| ChangeFlags.ClearingAgainFlags | src/monitor/NetworkInterfaceStatusTracker.cpp:123-131 | the last of these happens: a cleared gateway cleared again flags without changing |
| ChangeFlags.ClearingIsExact | src/monitor/NetworkInterfaceStatusTracker.cpp:208-224 | clearing takes down the flags it names and changes no field |
| ChangeFlags.ChangesAreCounted | src/monitor/NetworkInterfaceStatusTracker.cpp:53-179 | each change or refresh of a field is counted once under its name and nothing else is |
| ChangeFlags.MessageFlagsWhatChanged | src/monitor/NetworkMonitor.cpp:380-521 | over every run, the same for a message and any tracker: a flag comes up only if its field differs or the message was a refresh |
| ChangeFlags.LoneMessageIsTold | src/monitor/NetworkMonitor.cpp:557-600 | a sweep after a message that came alone since the last sweep tells a subscriber of exactly the fields that differ or were refreshed |
| Trackers.AddressAccounting | src/monitor/NetworkInterfaceStatusTracker.cpp:138-169 | stored plus removed is added, and every add call is an addition or a no-change update |
| Trackers.StoredIffLastAdded | src/monitor/NetworkInterfaceStatusTracker.cpp:138-169 | a record is stored exactly when the last call naming it in every member was an addition |
| Trackers.LastIPv4RemovalClearsGateway | src/monitor/NetworkInterfaceStatusTracker.cpp:153-169 | a removal that leaves no IPv4 record leaves the gateway unset or 0.0.0.0; one that leaves some does not touch it |
| LiveMonitors.TrackersAreRuns | src/monitor/NetworkMonitor.cpp:363-521 | every tracker of every run of the monitor is the outcome of such a sequence of calls, so the four results above hold of it |
| Trackers.Tracker.Touch | src/monitor/NetworkInterfaceStatusTracker.cpp:36-46 | sets the flag and counts it unless it stands already |
| Trackers.Tracker.SetName | src/monitor/NetworkInterfaceStatusTracker.cpp:53-61 | new state as specified: a different name is stored, flagged and counted |
| Trackers.Tracker.SetOperationalState | src/monitor/NetworkInterfaceStatusTracker.cpp:68-76 | likewise for the operational state |
| Trackers.Tracker.SetMacAddress | src/monitor/NetworkInterfaceStatusTracker.cpp:88-96 | likewise for the MAC, where an all-zero address always counts as a change |
| Trackers.Tracker.SetBroadcastAddress | src/monitor/NetworkInterfaceStatusTracker.cpp:98-106 | likewise for the broadcast address |
| Trackers.Tracker.SetGatewayAddress | src/monitor/NetworkInterfaceStatusTracker.cpp:113-121 | likewise for the gateway |
| Trackers.Tracker.ClearGatewayAddress | src/monitor/NetworkInterfaceStatusTracker.cpp:123-131 | a known gateway becomes 0.0.0.0 |
| Trackers.Tracker.AddNetworkAddress | src/monitor/NetworkInterfaceStatusTracker.cpp:138-151 | a new record is stored, flagged and counted; a known one is only counted as unchanged, and no flag is touched |
| Trackers.Tracker.RemoveNetworkAddress | src/monitor/NetworkInterfaceStatusTracker.cpp:153-169 | a known record is taken out, flagged and counted, and the gateway cleared if no IPv4 record is left |
| Trackers.Tracker.UpdateLinkFlags | src/monitor/NetworkInterfaceStatusTracker.cpp:171-179 | different link flags are stored, flagged and counted |
| Trackers.Tracker.ClearFlag | src/monitor/NetworkInterfaceStatusTracker.cpp:208-217 | a standing flag is taken down and counted |
| Trackers.Tracker.ClearChangedFlags | src/monitor/NetworkInterfaceStatusTracker.cpp:219-224 | all flags go, counted by their number |
| LiveMonitors.LiveMirrorIsFaithful | src/monitor/NetworkMonitor.cpp:557-627 | the subscriber refinement, for a monitor object in any state its methods can reach |
| LiveMonitors.LiveCacheIsHistory | src/monitor/NetworkMonitor.cpp:334-521 | the history result for a monitor object |
| LiveMonitors.LiveTrackersBalance | src/monitor/NetworkInterfaceStatusTracker.cpp:36-46 | flag and address counters of every tracker a monitor object holds balance, and it has changes exactly when more flags were set than cleared |
| Trackers.Tracker.HasChanges | src/monitor/NetworkInterfaceStatusTracker.cpp:191-195 | true exactly when some flag stands |
| LiveMonitors.LiveEnumerationShape | src/monitor/NetworkMonitor.cpp:97-108 | the request log of a monitor object that has finished enumerating |
| NetworkMonitors.NetworkMonitor.constructor | src/monitor/NetworkMonitor.cpp:73-95 | a new monitor is in the initial state: no request sent, nothing tracked, nobody subscribed, multicast groups joined that fit the preference |
| MulticastGroups.Groups | src/monitor/NetworkMonitor.cpp:81-90 | the word built bit by bit joins the link groups, the address groups whose messages can be accepted, the route groups of the wanted families, and no others |
| NetworkMonitors.NetworkMonitor.EnumerateInterfaces | src/monitor/NetworkMonitor.cpp:97-108 | runs the enumeration of the protocol model on the object and returns exactly one interface per tracker, under its current name |
| NetworkMonitors.NetworkMonitor.InterfacesFromCache | src/monitor/NetworkMonitor.cpp:223-230 | one interface per tracker key with the tracker's name |
| NetworkMonitors.NetworkMonitor.RunMonitor | src/monitor/NetworkMonitor.cpp:163-178 | run: the enumeration, then the change loop, as in the protocol model; nothing at all once stopped |
| NetworkMonitors.NetworkMonitor.Stop | src/monitor/NetworkMonitor.cpp:185-190 | the socket and the permission to run go, nothing else changes |
| NetworkMonitors.NetworkMonitor.ReceiveAndProcess | src/monitor/NetworkMonitor.cpp:192-221 | the receive loop computes the protocol model's receive function, including the pass over the old datagram after a stop, and terminates |
| NetworkMonitors.NetworkMonitor.RunCallbacks | src/monitor/NetworkMonitor.cpp:206-211 | a datagram is dispatched message by message with the sequence rule and the stop check |
| NetworkMonitors.NetworkMonitor.HandleCallbackResult | src/monitor/NetworkMonitor.cpp:245-284 | retry, next phase, end of enumeration, abort or carry on, as judged by the protocol model; on an open socket an error kills unless a dump is outstanding and it is 4, 11, 16 or 71 |
| NetworkMonitors.NetworkMonitor.SendDumpRequest | src/monitor/NetworkMonitor.cpp:286-301 | a dump request of the given type under the next number, for every family and with the statistics filter, is put into the buffer and sent |
| NetworkMonitors.NetworkMonitor.RetryLastDumpRequestWithNewSequenceNumber | src/monitor/NetworkMonitor.cpp:303-323 | the socket is drained and the buffered dump request sent again under the next number |
| NetworkMonitors.NetworkMonitor.NextDumpRequestSequenceNumber | src/monitor/NetworkMonitor.cpp:325-332 | 32-bit increment that skips zero |
| NetworkMonitors.NetworkMonitor.MessageCallback | src/monitor/NetworkMonitor.cpp:334-361 | one message extends the run by one handling step; cache, callbacks and statistics stay those of the run |
| NetworkMonitors.NetworkMonitor.EnsureNameCurrent | src/monitor/NetworkMonitor.cpp:363-378 | the tracker exists afterwards and has the given name; a new one is announced to every subscriber |
| NetworkMonitors.NetworkMonitor.ParseLinkMessage | src/monitor/NetworkMonitor.cpp:380-420 | the decoded link message and the statistics, counted before it may be discarded |
| NetworkMonitors.NetworkMonitor.ParseAddressMessage | src/monitor/NetworkMonitor.cpp:426-478 | the decoded address message, nothing for an untracked index or the wrong family, and the statistics |
| NetworkMonitors.NetworkMonitor.ParseRouteMessage | src/monitor/NetworkMonitor.cpp:481-520 | the decoded route message and the statistics; discarded exactly if the family is not 2 or IPv6 is preferred |
| NetworkMonitors.NetworkMonitor.Perform | src/monitor/NetworkMonitor.cpp:397-520 | what the decoded message does to trackers and lifecycle callbacks |
| NetworkMonitors.NetworkMonitor.Subscribe | src/monitor/NetworkMonitor.cpp:110-119 | stores the interfaces unless there are none, and extends the run by one subscription step |
| NetworkMonitors.NetworkMonitor.UpdateSubscription | src/monitor/NetworkMonitor.cpp:121-140 | replaces the interfaces of a known subscriber, or removes it if there are none, and extends the run by one update step |
| NetworkMonitors.NetworkMonitor.Unsubscribe | src/monitor/NetworkMonitor.cpp:142-155 | removes a known subscriber, and extends the run by one unsubscription step |
| NetworkMonitors.NetworkMonitor.NotifyTracker | src/monitor/NetworkMonitor.cpp:557-583 | the due callbacks for one tracker at the end of one subscriber's log and nowhere else: one for each field whose flag stands, or for every field if forced |
| NetworkMonitors.NetworkMonitor.NotifyChanges | src/monitor/NetworkMonitor.cpp:585-600 | the nested loops over trackers and subscribers compute the sweep stated for the whole cache |
| NetworkMonitors.NetworkMonitor.NotifyFully | src/monitor/NetworkMonitor.cpp:602-613 | the full report to one subscriber, flags left alone |
| NetworkMonitors.NetworkMonitor.NotifyLifecycle | src/monitor/NetworkMonitor.cpp:615-627 | every subscriber gets the callback once, whatever the order of the loop |
| Sweeps.SweptByOneMore | src/monitor/NetworkMonitor.cpp:590-599 | sweeping one more tracker extends the sweep over a list of trackers |
| Sweeps.ReportedByOneMore | src/monitor/NetworkMonitor.cpp:607-612 | reporting one more tracker extends the full report |
| FlagSets.WordRoundTrip | include/monkas/util/FlagSet.hpp:30-35 | a word goes into a set of n flags and comes out modulo 2^n |
| FlagSets.BitOfWord | include/monkas/util/FlagSet.hpp:30-33 | flag i of a set made from a word is bit i of the word |
| FlagSets.BitsRoundTrip | include/monkas/util/FlagSet.hpp:30-35 | a set goes into a word and comes out unchanged |
| FlagSets.EqualWordsEqualSets | include/monkas/util/FlagSet.hpp:72-77 | the comparison through words is equality exactly on equal sets |
| FlagSets.CountOfUpdate | include/monkas/util/FlagSet.hpp:39-47 | setting or resetting one flag changes the count by what it changes |
| FlagSets.FlagSet.FromWord | include/monkas/util/FlagSet.hpp:30-33 | a set made from a word is the word modulo 2^n |
| FlagSets.FlagSet.Set | include/monkas/util/FlagSet.hpp:45-45 | one flag set, the count up by one unless it stood |
| FlagSets.FlagSet.Reset | include/monkas/util/FlagSet.hpp:47-47 | one flag taken down, the count down by one if it stood |
| FlagSets.FlagSet.ResetAll | include/monkas/util/FlagSet.hpp:49-49 | no flag left |
| FlagSets.FlagSet.Any | include/monkas/util/FlagSet.hpp:43-43 | true exactly when the count is positive |
| FlagSets.TextRoundTrip | include/monkas/util/FlagSet.hpp:53-70 | for distinct names that are free of bars and not "None", splitting the text at the bars recovers exactly the set bits |
| FlagSets.TextInjective | include/monkas/util/FlagSet.hpp:53-70 | so different sets have different texts |
| FlagSets.FlagSet.ToString | include/monkas/util/FlagSet.hpp:53-70 | the loop with its `first` variable writes exactly that text |
| FlagNames.ChangedNamesAreGood | src/monitor/NetworkInterfaceStatusTracker.cpp:293-315 | the change-flag names meet the condition |
| FlagNames.ChangedNamesFollowFlags | src/monitor/NetworkInterfaceStatusTracker.cpp:293-315 | each change flag's bit carries its name |
| FlagNames.LinkNamesAreGood | src/monitor/NetworkInterfaceStatusTracker.cpp:322-368 | so do the link-flag names |
| FlagNames.AddressNamesAreGood | src/network/Address.cpp:108-140 | so do the address-flag names |
| EthernetText.ToString | src/ethernet/Address.cpp:33-50 | the loop with its running index fills exactly seventeen characters with the text form |
| EthernetText.DecodeText | src/ethernet/Address.cpp:33-50 | the text form can be decoded back to the bytes |
| EthernetText.TextKeepsOrder | src/ethernet/Address.cpp:33-50 | byte order and text order coincide for all addresses |
| EthernetText.TextInjective | src/ethernet/Address.cpp:33-50 | different addresses have different texts |
| Wildcards.WildCmp | external/doctest/doctest/doctest.h:4138-4172 | terminates and returns true exactly when the string can be cut into one fitting piece for each pattern character, in both case modes |
| Wildcards.MatchFromIsMatches | external/doctest/doctest/doctest.h:4138-4172 | the step-by-step reading of a match and the cutting into pieces agree |
| Wildcards.NewStarTakesOver | external/doctest/doctest/doctest.h:4151-4158 | why forgetting every star but the latest loses no match |
| Wildcards.LastAttempt | external/doctest/doctest/doctest.h:4151-4171 | with the string used up only the running attempt can still succeed |
| SmallStrings.String.Empty | external/doctest/doctest/doctest.h:3633-3636 | an empty text on the stack |
| SmallStrings.String.FromBytes | external/doctest/doctest/doctest.h:3646-3648 | any bytes, on the stack up to 23 of them, in a block otherwise |
| SmallStrings.String.Copy | external/doctest/doctest/doctest.h:3654-3654 | the same text in storage of its own, on the stack exactly up to 23 bytes |
| SmallStrings.String.Assign | external/doctest/doctest/doctest.h:3656-3665 | copy assignment: the other's text, self-assignment included, and no shared storage |
| SmallStrings.String.Append | external/doctest/doctest/doctest.h:3667-3715 | the concatenation with another string, in all four branches, with the capacity each branch leaves and the other string unchanged |
| SmallStrings.String.Move | external/doctest/doctest/doctest.h:3717-3721 | the text changes hands with its block and capacity and the source is left empty |
| SmallStrings.String.MoveAssign | external/doctest/doctest/doctest.h:3723-3732 | the same on assignment, self-assignment included |
| SmallStrings.String.Substr | external/doctest/doctest/doctest.h:3766-3769 | the part of the text from pos, at most cnt bytes, as a string of its own |
| SmallStrings.String.SubstrMoved | external/doctest/doctest/doctest.h:3758-3764 | the same part, shifted in place and moved out; the source is left empty |
| SmallStrings.String.SetSize | external/doctest/doctest/doctest.h:3620-3623 | the text cut to a prefix where it lies |
| SmallStrings.String.Find | external/doctest/doctest/doctest.h:3771-3778 | the first position of a byte at or after pos, or none |
| SmallStrings.String.TextFacts | external/doctest/doctest/doctest.h:3745-3756 | size and terminator: on the stack the last byte is 23 minus the size, on the heap the capacity exceeds the size, and the text always ends in NUL |

## Left out

- Sockets, libmnl internals, packet dumps, logging, statistics printing, sleeping before a retry: foreign calls or output. A failing send, which aborts, is not modelled either.
- stop() during the enumeration: the source then spins in the enumeration loop or uses a null socket. The model ends the call, with `aborted` set in the second case.
- Calling `enumerateInterfaces` again while an earlier call still waits on its socket: cannot happen in one thread, and is excluded by a precondition.
- Callbacks that subscribe or unsubscribe while they are being delivered, and null subscribers passed to `subscribe`: the source iterates and dereferences them unchecked.
- SmallStrings.String.Append: does not cover `+=` with the same object, where the source copies overlapping ranges or reads the block it has just released.
- Messages of another port, control messages other than the end of a dump and errors, and malformed attribute lists: libmnl deals with them before the source sees anything.
- The `changedFlagChecks` counter, the time stamp behind `age()`, byte counters and 64-bit wrap-around of counters: only printed. The counters are natural numbers.
- Datagrams of NOOP messages only. After stop() from a callback of the sweep behind such a datagram the source's receive loop would process it for ever.
- A string attribute without a terminating NUL: the source reads past its end, the model stops there.
- Operational states are kept as bytes; their names are only printed.
- `ip::Address` parsing, printing and classification, `Interface::fromName` and `fromIndex`: kernel and C library calls.
- Deallocation of heap blocks in the string class, 32-bit overflow of its sizes, `rfind`, comparison and stream input.
- The locale of `tolower` in the matcher: the C locale is modelled.
- The rest of the doctest header, the command-line program, scripts and build files.
