# dmdhcp, a DHCP client: a verified model

dmdhcp is the client side of DHCP (RFC 2131 and RFC 2132). This project models its lease state machine in
time, its header and option codecs, its message senders, its lease table and its locking, and proves what
they keep over every input, every run and every interleaving.

`dafny verify dfyconfig.toml` checks everything.

## How the model is laid out

| file | what it holds |
|---|---|
| `Net.dfy` | bytes, `uint32_t`, addresses, big-endian words, the broadcast address |
| `Options.dfy` | the option area: a grammar, its reader, `Find`, `Write`, and how they fit together |
| `Wire.dfy` | the fixed header: `Build`, `Parse`, and both round trips |
| `Octets.dfy` | what the codecs make of literal bytes: codes, offsets, byte order |
| `Timing.dfy` | T1/T2 defaults, the three lease-timer periods and the backoff, in wrapping arithmetic |
| `LeaseParams.dfy` | what a lease learns from an OFFER or ACK, and the end-to-end round trip |
| `Sender.dfy` | the messages the client builds |
| `Machine.dfy` | the lease as a state machine: one function per critical section, events and runs |
| `Discipline.dfy`, `Interface.dfy`, `Contents.dfy` | what every run keeps, in every interleaving: messages and timers, interface and probes, what the messages say |
| `Agreement.dfy` | what every quiet run keeps |
| `Callbacks.dfy`, `AddressSafety.dfy`, `Teardown.dfy`, `Deadline.dfy` | the consequences, topic by topic |
| `Silence.dfy`, `Progress.dfy` | a network that stays silent |
| `Reachability.dfy`, `Diagram.dfy` | replies as bytes, runs into every phase, and the exact state diagram |
| `Counterexamples.dfy` | runs in which the client falls short of what one might expect |
| `Lease.dfy` | the lease object, updated in place, refining the machine |
| `Tables.dfy`, `LeaseTable.dfy` | the lease table, as a value and as a list of lease objects |
| `Locks.dfy` | lock order and deadlock freedom |

A state of the machine holds the fields of `struct dmdhcp_lease`, the interface it configures, two one-shot
timers with absolute deadlines, a clock, and a history of what can be observed: phases entered, messages
sent, replies accepted, probes, writes to the interface, callbacks. Each critical section under the lease's
lock is one step. Random numbers, the result and duration of an ARP probe, and datagrams (as raw bytes) are
inputs. A timer callback is either due (its deadline was reached, which uses the deadline up) or stray (it
was already under way when the timer was started anew, or comes early); stray callbacks are allowed
everywhere unless a statement says otherwise.

`dmdhcp_lifecycle_handle_lost` is reached after its caller has released the lock and has two critical
sections of its own, so a loss takes three steps. A run is *quiet* when nothing *harmful* comes between them:
no ACK, no NAK and no second expiry. Messages without effect and other callbacks may come at any time. These
events are exactly the ones that end the agreement of interface, callbacks and phase (`Agreement.StepInStep`).
Most statements need no such assumption: address safety, teardown, the lease deadline and schedule, the count
of conflicts, the pause after a DECLINE, the absence of stuck states and progress in silence hold in every
interleaving. For the callback language the exact condition on all runs is
`Callbacks.TraceIsWordExactlyIfOrderly`. What goes wrong outside quiet runs is shown by runs of a lease of
three seconds whose messages are given as bytes: `Counterexamples.AddressLeftBehind`,
`Counterexamples.LossToldTwice` and `Counterexamples.FailureUndone`.

The transaction identifier is compared when the lease is looked up, in an earlier critical section than the
dispatch. The machine therefore delivers a reply without comparing it again, and every statement about runs
covers a lease that moved on in between; the table compares it.

A run is *timely* when time passes no deadline before its callback has run, none passes between a callback that
finds the lease lost and the first critical section of the loss, and ARP probes keep to their timeout. The
application's own callback, between the two critical sections, may take its time. The lease deadline and
schedule ask for less: only the lease timer must not be late (`Deadline.LeaseTimely`).

## Where code and documentation differ

The code is followed; the difference is stated as a lemma where it matters.

- `src/dmdhcp_internal.h:343-349` counts T2 from the original BOUND entry. After a forced renewal the lease
  timer still stands at T1, so that rebinding begins there and an unanswered lease ends T2 - T1 early, exactly
  then and never otherwise: `Deadline.LeaseSchedule`, `Deadline.FullLeaseUnlessForced` and
  `Counterexamples.LeaseCutShort`.
- `include/dmdhcp.h` says that an unset header address is received as such. It is received as 0.0.0.0:
  `Wire.DecodeOfEncode`.
- The option writer accepts codes 0 and 255, which cannot be read back:
  `Options.RoundTripsExactlyInRange`.
- The pause of ten seconds after a DECLINE is cut short by a stray retransmit callback:
  `Deadline.PauseAfterDecline` and `Counterexamples.PauseCutShort`.
- A renewal is trusted: the address it names is used without a probe, even if it is a new one:
  `AddressSafety.RenewalIsNotProbed` and `Counterexamples.UnprobedAddressInUse`.
- A server that sends T1 and T2 out of order, or a lease shorter than three seconds, makes the interface
  outlive the lease: `Timing.BudgetFitsExactlyWhenOrdered`, `Timing.DefaultBudgetNeverOverruns` and
  `Deadline.KeptForThreePeriods`.

## Model

| member | source | states |
|---|---|---|
| Net.U32RoundTrip | src/dmdhcp_wire.c:24-35 | reading back a written 32-bit word gives the word |
| Net.U32BytesUnique | src/dmdhcp_wire.c:24-35 | writing a word that was read gives its four bytes |
| Net.BroadcastMeaning | src/dmdhcp_lifecycle.c:21-30 | a bit of the broadcast address is set exactly when it is set in the address or clear in the mask |
| Options.ParseReads | src/dmdhcp_options.c:55-84 | every byte string is entries and padding followed by nothing, an END marker or a truncated entry |
| Options.GrammarUnambiguous | src/dmdhcp_options.c:5-7 | it is so in exactly one way, and the reader finds it |
| Options.LookupRange | src/dmdhcp_options.c:58-67 | codes 0 and 255 are never found, on any byte string |
| Options.LookupRendered | src/dmdhcp_options.c:50-87 | on a rendered area the answer is the first entry with the code, whatever follows END |
| Options.Find | src/dmdhcp_options.c:50-87 | on all byte strings the loop answers what the grammar says: first match before the end, an error exactly if a truncated entry comes first; the slice lies inside the area behind its code and length |
| Options.Write | src/dmdhcp_options.c:19-48 | succeeds exactly when all entries and END fit, fails with the right error otherwise, writes exactly the entries and END, and touches nothing outside the buffer |
| Options.FindAfterWrite | src/dmdhcp_options.c:19-87 | finding any code in written options gives the first option with it, or nothing |
| Options.RoundTripsExactlyInRange | src/dmdhcp_options.c:25-40 | written options read back for every code if and only if all codes are within 1 to 254 |
| Options.OrderIsFree | src/dmdhcp_options.c:75-83 | when no code occurs twice, every option is found wherever it stands |
| Options.ArrangedFindsSame | src/dmdhcp_options.c:55-84 | options of distinct codes, in any order and with any padding between them, give the same answer to every search |
| Octets.OptionOctets | src/dmdhcp_options.c:55-84 | padding is 0, an option is code, length and data, 255 ends the options, and a cut-off option is an error, on literal bytes |
| Octets.DiscoverOptions | src/dmdhcp_output.c:83-105 | the options of a nameless DISCOVER are 53 1 1 55 7 1 3 6 42 51 58 59 |
| Octets.NameOnTheWire | src/dmdhcp_output.c:94-100 | a name goes under code 12, cut to 255 octets |
| Octets.HeaderOffsets | src/dmdhcp_wire.c:96-125 | on every accepted buffer each field is read from its offset of RFC 2131, most significant octet first |
| Octets.HeaderRefused | src/dmdhcp_wire.c:96-110 | a buffer is refused if and only if it is shorter than 240 bytes, has another operation than 1 and 2, or lacks the cookie 99 130 83 99 |
| Octets.NetworkByteOrder | src/dmdhcp_wire.c:13-35 | words are written and read most significant octet first |
| Options.AddressesOfFlatten | src/dmdhcp_options.c:108-127 | the addresses of a multi-address option are read back in order |
| Wire.DecodeOfEncode | src/dmdhcp_wire.c:66-125 | a built header followed by anything parses back to the message, unset addresses as 0.0.0.0, exactly when the operation is a valid one |
| Wire.EncodeOfDecode | src/dmdhcp_wire.c:66-125 | rebuilding an accepted message restores its 44 field bytes and cookie, and the whole header exactly when `sname` and `file` were zero |
| Wire.WriteAddr | src/dmdhcp_wire.c:42-55 | writes four bytes, or refuses a v6 address and writes nothing |
| Wire.Build | src/dmdhcp_wire.c:66-94 | succeeds exactly for a large enough buffer and no v6 address; fills exactly the 240 header bytes |
| Wire.Parse | src/dmdhcp_wire.c:96-125 | accepts exactly the decodable buffers and reports the options offset |
| Timing.OrderedBudget | src/dmdhcp_lifecycle.c:66-89 | with 1 <= T1 < T2 < lease time the three wrapped periods never exceed the lease, and equal it exactly when no product wraps |
| Timing.BudgetFitsExactlyWhenOrdered | src/dmdhcp_lifecycle.c:66-89 | below the wrapping range the periods fit the lease if and only if 1 <= T1 < T2 < lease time |
| Timing.DefaultBudgetExact | src/dmdhcp_input.c:51-78 | with default T1 and T2 the periods sum to exactly the lease time if and only if it is 3 to 8589935 seconds, and then nothing wraps |
| Timing.DefaultBudgetNeverOverruns | src/dmdhcp_input.c:51-78 | with default T1 and T2 the periods stay within the lease if and only if it is at least three seconds, over all 32-bit lease times |
| Timing.DefaultsAreFractions | src/dmdhcp_input.c:63-78 | the defaults are half and seven eighths of the lease time, rounded down; T2 falls short exactly from 613566757 seconds on, where its product wraps |
| Timing.PeriodsInMilliseconds | src/dmdhcp_lifecycle.c:66-89 | each period is the time to the next of T1, T2 and expiry in milliseconds modulo 2^32, one second where the next is not later |
| Timing.BackoffValues | src/dmdhcp_output.c:165-169 | the waits are 4, 8, 16, 32 and then 64 seconds |
| Timing.PeriodsZero | src/dmdhcp_lifecycle.c:66-89 | T1's period is never zero, as the source takes care of; those of T2 and the expiry wrap to zero if and only if the times are ordered and a multiple of 2^29 seconds apart |
| Timing.BackoffDoubles | src/dmdhcp_output.c:165-169 | the next interval after min(4000 * 2^k, 64000) is min(4000 * 2^(k+1), 64000) |
| LeaseParams.PopulateUnderstands | src/dmdhcp_input.c:27-116 | if every search answers what a grant says, the lease is populated with exactly the grant; an omitted mask or server identifier survives |
| LeaseParams.ArrangedFinds | src/dmdhcp_input.c:32-98 | however a grant's options are ordered, padded and mixed with unrelated ones, every search answers what was meant |
| LeaseParams.AddressesByLength | src/dmdhcp_input.c:27-49 | an option of four bytes replaces mask and server, another length keeps them; the gateway is the first router or unset |
| LeaseParams.TimesByLength | src/dmdhcp_input.c:51-78 | a missing time has its default, one of another length than four bytes is zero |
| LeaseParams.ListsByLength | src/dmdhcp_input.c:81-115 | of DNS servers every whole address is taken; an NTP list not made of whole addresses is ignored |
| LeaseParams.GrantRoundTrip | src/dmdhcp_input.c:118-166 | end to end: a reply with the grant's options in any order, padded and mixed with unrelated ones, followed by anything, is parsed and populated back to exactly the granted address, mask, first router, server, times, DNS and NTP lists |
| LeaseParams.WrittenGrantRoundTrip | src/dmdhcp_options.c:19-127 | the same for the bytes that the header builder and the option writer produce, given the options in any order |
| Sender.OptionsOfFit | src/dmdhcp_output.c:83-105 | any message needs at most five options and 281 bytes of them, for any hostname |
| Sender.Compose | src/dmdhcp_output.c:51-123 | the five-entry array and the 576-byte buffer always suffice; the datagram is at most 522 bytes |
| Sender.DatagramReads | src/dmdhcp_output.c:51-123 | a receiver reads operation 1, Ethernet, the transaction, the broadcast flag, the client's address if it has one, 0.0.0.0 elsewhere and the MAC padded with zeros, and for every option code exactly what was meant to be sent under it |
| Discipline.RunDisciplined | src/dmdhcp_output.c:165-236 | in every reachable state of every interleaving: messages are of their phase, share its transaction identifier and are spaced by its backoff, a search has all addresses unset and both lists empty, and the phase is driven by an armed timer |
| Discipline.StepDisciplined | src/dmdhcp_output.c:328-392 | every event keeps all of that |
| Discipline.NoStuckState | src/dmdhcp_lifecycle.c:118-154 | no started lease outside FAILED is ever without an armed timer (or a thread handling its loss) that moves it on |
| Discipline.XidChangesWithPhase | src/dmdhcp_output.c:178-236 | the transaction identifier changes only with the first message of a discovery, reboot, renewal or rebinding |
| Contents.MessagesSayWhatTheyShould | src/dmdhcp_output.c:125-163 | in every interleaving a request after an offer names address and server of the message last accepted, a reboot the remembered address, a renewal goes to the server that gave the address, and a DECLINE names the address just found in use and who offered it |
| Contents.FreshPhaseDrawsXid | src/dmdhcp_output.c:178-236 | every discovery, reboot, renewal and rebinding begins with the random number drawn for it |
| Contents.ReleaseTellsServer | src/dmdhcp.c:71-111 | release sends exactly one DHCPRELEASE, from the address to the server and before the interface is cleared, if both are known, and otherwise, as stop always, nothing |
| Contents.ReleaseOnTheWire | src/dmdhcp.c:82-85 | the server reads type 7, the client's address, MAC and its own identifier, and no requested address |
| Discipline.ShapeOnTheWire | src/dmdhcp_output.c:125-163 | client address, option 50 and option 54 follow the table of section 4.3.6 of RFC 2131 in the bytes a server reads |
| Interface.RunKept | src/dmdhcp_lifecycle.c:11-64 | in every interleaving the interface shows the address last applied, or is cleared, or is as found; DECLINEs are counted; a check under way is of an acknowledged lease |
| Interface.StepKept | src/dmdhcp_lifecycle.c:91-108 | every event keeps that, also between the critical sections of a loss |
| Agreement.RunInStep | src/dmdhcp_input.c:143-208 | in every quiet run interface, route, callbacks, the bound on conflicts and probes agree with the phase, and no NTP server is left inside a loss |
| Agreement.StepInStep | src/dmdhcp_lifecycle.c:91-108 | an event keeps that agreement if and only if it is not an ACK, a NAK or a second expiry while a loss is handled |
| Callbacks.HeardIsWord | include/dmdhcp.h:253-303 | a listener that is never confused has heard a word of the callback language |
| Callbacks.TraceLanguage | src/dmdhcp_output.c:247-319 | callbacks form complete sessions of first acquisition, renewals and loss, then an open session exactly while a lease is held or a final error exactly in FAILED |
| Callbacks.WordIffUnconfused | include/dmdhcp.h:253-303 | a trace is a word of the language if and only if it leaves its listener unconfused |
| Callbacks.TraceIsWordExactlyIfOrderly | src/dmdhcp_lifecycle.c:91-108 | in every run of every interleaving the callbacks form a word if and only if each was made while the interface was in the state it speaks of, and none after an error |
| Callbacks.ConfusedExactlyIfConfusing | src/dmdhcp_lifecycle.c:98-107 | in a state of agreement an event confuses the application, once the losses decided on are told, if and only if it is a NAK or a second expiry while a loss is handled, or an ACK after the interface was cleared |
| AddressSafety.KeptAddressesWereProbed | src/dmdhcp_output.c:282-319 | if first uses were probed and renewals keep the address, every address ever applied was probed clean before |
| AddressSafety.OnlyProbedAddressesInUse | src/dmdhcp_output.c:282-319 | in every interleaving a lease is first used only after an accepted ACK for it and then a clean probe of its address, with at most its NTP list forgotten in between; if renewals keep the address, every address on the interface was probed clean |
| AddressSafety.NothingBetweenAckAndUse | src/dmdhcp_input.c:159-167 | in a quiet run nothing at all comes between the ACK, the probe and the first use, and no field changes |
| AddressSafety.RenewalIsNotProbed | src/dmdhcp_input.c:180-199 | a renewing ACK puts any address it names on the interface; only probed addresses have been in use afterwards if and only if that was so before and the address had been probed |
| Teardown.InfoMatchesInterface | src/dmdhcp_lease_table.c:293-317 | in every quiet run, outside the two critical sections of a loss, lease information is given exactly while the interface is configured, with the same address and mask and the broadcast of both |
| Teardown.TeardownDeconfigures | src/dmdhcp.c:71-111 | from any state of any interleaving stop and release leave the interface de-configured, or as found if no lease was ever applied |
| Teardown.ConflictsAreBounded | src/dmdhcp_output.c:247-270 | in every interleaving the counter is the number of DECLINEs since the start or the last BOUND; in quiet runs it is at most four, and four exactly in FAILED |
| Teardown.FailedIsFinal | src/dmdhcp_lifecycle.c:105-107 | FAILED is left if and only if a thread ends the handling of an earlier loss |
| Teardown.FailedForGood | src/dmdhcp_output.c:383-388 | after a failure with no loss under way no continuation changes anything but the clock and spent timers |
| Teardown.MessageDuringLoss | src/dmdhcp_lifecycle.c:91-108 | a message between the critical sections of a loss leaves a search with the interface configured if and only if it is an ACK, and then for the address it names |
| Teardown.InterfaceCanOutliveLease | src/dmdhcp_lifecycle.c:98-107 | every quiet run that is rebinding can be continued to such a state |
| Teardown.OrphanStays | src/dmdhcp_output.c:334-341 | from there a silent network never takes the address off the interface again |
| Deadline.ConfiguredOnlyWithinLease | src/dmdhcp_lifecycle.c:66-154 | if the lease timer is not late, in every interleaving the interface is never configured for a held lease beyond the three periods after BOUND was entered, hence never beyond an ordered or default lease of three seconds or more; in quiet runs it is configured for held leases only |
| Deadline.RunPunctual | src/dmdhcp_lifecycle.c:66-89 | in every interleaving, with renewals forced anywhere, and any wrapped periods, the lease timer stands at the sum of the periods waited for, the second of which a forced renewal skips |
| Deadline.LeaseSchedule | src/dmdhcp_lifecycle.c:118-154 | with regular times renewing begins exactly T1, rebinding T2 and the loss the lease time after BOUND was entered; after a forced renewal the latter two come exactly T2 - T1 early |
| Deadline.FullLeaseUnlessForced | src/dmdhcp.c:57-69 | rebinding begins at T2 and the lease lasts its full time if and only if the renewal was not forced |
| Deadline.KeptForThreePeriods | src/dmdhcp_lifecycle.c:66-89 | an unanswered, unforced lease is configured for exactly the three wrapped periods, which below the wrapping range is within the lease if and only if 1 <= T1 < T2 < lease time |
| Deadline.PauseAfterDecline | src/dmdhcp_output.c:267-269 | in every interleaving only a retransmit callback, or outside quiet runs the end of an earlier loss, leaves DECLINING, and the callback is due exactly from ten seconds after the DECLINE on |
| Reachability.MessageArrives | src/dmdhcp_input.c:118-158 | the bytes of any message that carries a grant, however its options are arranged, reach the dispatch with its type and exactly its grant |
| Reachability.OnlyTypedRepliesRead | src/dmdhcp_input.c:118-141 | of all messages only replies with a message type of one byte are looked at |
| Reachability.AcceptanceTakesAll | src/dmdhcp_input.c:146-167 | an OFFER while searching and an ACK while requesting or rebooting are learnt entirely, probed a millisecond later, and change nothing else |
| Reachability.RenewalTakesAll | src/dmdhcp_input.c:180-199 | an ACK while renewing or rebinding is learnt entirely and shown by the interface, the lease timer starts with its T1, and the retransmit timer stays |
| Reachability.RefusalOrNothing | src/dmdhcp_input.c:169-209 | a NAK gives a request up for a search and loses a held lease; which messages are ignored in which phase, exactly |
| Reachability.StartBegins | src/dmdhcp.c:13-55 | a start sends its first message at once, a REQUEST for a remembered address or else a DISCOVER, and leaves the interface as it was found |
| Reachability.ProbeOutcomes | src/dmdhcp_output.c:247-319 | a conflict is counted and waited out for ten seconds, the fourth fails; a clean probe leads to the request or to exactly the lease acknowledged; the interface changes in that last case only |
| Reachability.LeaseTimerMovesOn | src/dmdhcp_lifecycle.c:118-154 | renewing, rebinding and the loss follow each other and touch neither parameters nor interface; a forced renewal leaves the lease timer |
| Reachability.ResendsOnlyWait | src/dmdhcp_output.c:334-366 | a resend doubles the wait and touches nothing else |
| Reachability.LossClears | src/dmdhcp_lifecycle.c:93-98 | the first critical section of a loss clears a configured interface, its route and the NTP list, and keeps the rest |
| Reachability.SearchStartsAfresh | src/dmdhcp_output.c:178-195 | a search begins with a new transaction, no address, no server and empty lists, and touches neither interface nor lease timer |
| Reachability.GrantAcquired | src/dmdhcp_output.c:282-319 | from every quiet search every grant that fits its options is acquired by OFFER, clean probe, ACK and clean probe, and is then exactly what the lease holds and the interface shows, with its T1 ahead |
| Reachability.GrantAcknowledged | src/dmdhcp_input.c:159-167 | the same from every quiet request or reboot by an ACK and a clean probe |
| Reachability.GrantRenewed | src/dmdhcp_input.c:180-199 | while renewing or rebinding every grant is taken over at once and entirely |
| Diagram.RunWalks | docs/dmdhcp.md:113-160 | in every run the phases entered form a path along the edges of the diagram and the two that only the notes below it mention (a refused or unanswered request, a refused renewal); outside quiet runs a search can also begin anew from anywhere |
| Diagram.DiagramIsExact | docs/dmdhcp.md:113-160 | quiet runs change the phase exactly along these edges: none is missing and each is taken by some run |
| Counterexamples.AddressLeftBehind | src/dmdhcp_lifecycle.c:98-107 | on any interface and for any address, a started, timely run ends searching for a server with the address still configured |
| Counterexamples.LossToldTwice | src/dmdhcp_lifecycle.c:98-107 | a started, timely run tells the application of one loss twice |
| Counterexamples.FailureUndone | src/dmdhcp_lifecycle.c:105-107 | a started run, with an expiry and a NAK handled at once, leaves FAILED |
| Counterexamples.LeaseCutShort | src/dmdhcp.c:63-66 | a started, quiet, timely run gives a lease of three seconds up after two |
| Counterexamples.PauseCutShort | src/dmdhcp_output.c:383-385 | a started, quiet run leaves DECLINING at the moment it was entered |
| Counterexamples.UnprobedAddressInUse | src/dmdhcp_input.c:180-199 | for any two addresses a started, quiet run is bound to the second, which was never probed |
| Silence.RequestPhasesBegin | src/dmdhcp_output.c:293-302 | a clean probe of an offer, and a start with a remembered address, begin a request phase with the first of its requests |
| Silence.UnansweredRequest | src/dmdhcp_output.c:343-366 | an unanswered request is sent five times under one identifier at 0, 4, 12, 28 and 60 seconds and given up at exactly 124 |
| Progress.RunClocked | src/dmdhcp_lifecycle.c:66-89 | in every run the deadlines that drive the lease are armed for no longer than a 32-bit period, and in every timely run they are ahead |
| Progress.EventDescends | src/dmdhcp_output.c:328-392 | in silence every callback settles the lease or lowers its rank |
| Progress.SilenceSettles | src/dmdhcp_lifecycle.c:118-154 | from any state that any run of a started lease reaches, a silent network brings the lease to SELECTING or FAILED within a bounded number of callbacks and within a 32-bit period and, for each of its stages, another one with a probe; stages are six at most and one for each critical section of a loss still to come |
| Progress.SilenceContinues | src/dmdhcp_lifecycle.c:118-154 | until then some callback always becomes due without a deadline being missed |
| Leases.Lease.Perform | src/dmdhcp_internal.h:130-180 | whatever happens, the object does what the machine does, and has sent exactly the packets of the machine's history |
| Leases.Lease.Send | src/dmdhcp_output.c:51-123 | one packet with the composed bytes, destination and path is added |
| Leases.Lease.StartDiscovery | src/dmdhcp_output.c:178-195 | the object enters a discovery as the machine does |
| Leases.Lease.StartReboot | src/dmdhcp_output.c:197-210 | the object enters a reboot as the machine does |
| Leases.Lease.StartRenew | src/dmdhcp_output.c:212-223 | the object begins a renewal as the machine does |
| Leases.Lease.StartRebind | src/dmdhcp_output.c:225-236 | the object begins a rebinding as the machine does |
| Leases.Lease.HandleConflict | src/dmdhcp_output.c:247-270 | the object declines, then pauses or fails, as the machine does |
| Leases.Lease.RunConflictProbe | src/dmdhcp_output.c:282-319 | the object acts on a probe as the machine does |
| Leases.Lease.RetransmitTimerCallback | src/dmdhcp_output.c:328-392 | the object's retransmit callback refines the machine's |
| Leases.Lease.ApplyToInterface | src/dmdhcp_lifecycle.c:11-45 | address, mask, broadcast and route of the interface become those of the lease |
| Leases.Lease.BroadcastOf | src/dmdhcp_lifecycle.c:23-29 | the byte loop computes the broadcast address |
| Leases.Lease.UnapplyFromInterface | src/dmdhcp_lifecycle.c:47-64 | the interface is cleared if it was configured, and left alone otherwise |
| Leases.Lease.LoseInterface | src/dmdhcp_lifecycle.c:93-98 | the first critical section of a loss refines the machine's |
| Leases.Lease.RestartAfterLoss | src/dmdhcp_lifecycle.c:105-107 | the second critical section of a loss refines the machine's |
| Leases.Lease.LeaseTimerCallback | src/dmdhcp_lifecycle.c:118-154 | the object's lease-timer callback refines the machine's |
| Leases.Lease.PopulateFromOptions | src/dmdhcp_input.c:27-116 | the parameters become those that the options populate |
| Leases.Lease.ReadAddresses | src/dmdhcp_input.c:81-96 | the loop stores every address of the option, in order |
| Leases.Lease.DispatchReply | src/dmdhcp_input.c:143-208 | the dispatch on phase and message type refines the machine's |
| Leases.Lease.ForceRenewal | src/dmdhcp.c:57-69 | renewing is forced in BOUND and ignored elsewhere |
| Leases.Lease.ReleaseLease | src/dmdhcp.c:71-94 | a RELEASE when address and server are known, and the interface cleared |
| Leases.Lease.StopLease | src/dmdhcp.c:96-111 | the interface is cleared |
| Tables.OneLeasePerInterface | src/dmdhcp_lease_table.c:214-235 | under any sequence of starts, stops, releases and events an interface has at most one lease |
| Tables.DatagramsReachTheirLease | src/dmdhcp_input.c:118-153 | each row after a datagram: the lease of the interface has received it if and only if it is a reply in the lease's transaction; every other row is as before |
| Tables.StartsAppend | src/dmdhcp.c:13-55 | a start is refused if and only if the interface has a lease, and otherwise adds one at the end |
| Tables.RemovalKeepsOthers | src/dmdhcp_lease_table.c:230-235 | a removal leaves exactly the leases of the other interfaces, in order |
| Tables.EventsMoveTheirLease | src/dmdhcp_output.c:328-392 | an event of one lease is a step of its row and of no other |
| Tables.DatagramsAreIsolated | src/dmdhcp_input.c:131-133 | a datagram changes at most the lease of its interface, and only if the transaction matches |
| Tables.RowsAreRuns | src/dmdhcp.c:13-111 | every lease in any table is at the end of a run of its own, so all statements about runs hold of it |
| Tables.VisitTellsUpToStop | src/dmdhcp_lease_table.c:468-485 | a visit tells the addresses one by one up to and including the first at which the visitor asks to stop |
| Tables.ServersOfConfiguredLeases | src/dmdhcp_lease_table.c:383-420 | in every quiet run the servers that count are those of leases whose interface is configured |
| Tables.VisitorToldAllServers | src/dmdhcp_lease_table.c:468-485 | in every table that can come about a visitor that never stops is told exactly the NTP servers of held leases, in table order |
| LeaseTables.LeaseTable.FindByIface | src/dmdhcp_lease_table.c:196-202 | the first lease of the interface, or none |
| LeaseTables.LeaseTable.FindByXid | src/dmdhcp_lease_table.c:204-212 | the lease of the interface if its transaction matches, or none |
| LeaseTables.LeaseTable.Insert | src/dmdhcp_lease_table.c:214-228 | the lease is appended exactly if its interface has none |
| LeaseTables.LeaseTable.Remove | src/dmdhcp_lease_table.c:230-235 | the lease alone is removed; the others keep their order |
| LeaseTables.LeaseTable.StartLease | src/dmdhcp.c:13-55 | refused exactly if the interface has a lease; otherwise a new lease with the given name and MAC is started, appended and returned |
| LeaseTables.LeaseTable.Perform | src/dmdhcp_lifecycle.c:118-154 | any other event of a lease changes the table of objects as it does the table of states |
| LeaseTables.LeaseTable.HandleDatagram | src/dmdhcp_input.c:118-209 | the table of objects changes as the table of states does |
| LeaseTables.LeaseTable.GetNtpServers | src/dmdhcp_lease_table.c:383-420 | the first places hold the first servers of all held leases, as many as there are up to the limit; the rest of the buffer is untouched |
| LeaseTables.LeaseTable.VisitNtpServers | src/dmdhcp_lease_table.c:468-485 | the visitor is told the servers of each held lease up to its first stop in that lease |
| Locks.OperationOrdered | src/dmdhcp_lease_table.c:196-235 | every operation takes the table mutex before a lease lock, ends with none held, and calls back with none held, whatever the callback does |
| Locks.CallbackUnderNoLock | src/dmdhcp_output.c:258-263 | what comes before a callback has accessed the lease and released every lock it took |
| Locks.WalkUses | src/dmdhcp_lease_table.c:390-417 | a walk accesses the table, then exactly the leases it is given |
| Locks.NoRace | src/dmdhcp_lease_table.c:390-417 | at no point of any interleaving are two threads about to access the same lease, or the table |
| Locks.NoDeadlock | src/dmdhcp_lease_table.c:448-485 | at every point of every interleaving of any number of threads all have finished or one can go on, and each step brings the end nearer |
| Locks.NoCircularWait | src/dmdhcp_lease_table.c:390-417 | whoever is waited for by a waiting thread waits for nobody, and no thread waits for itself |

## Left out

- The network stack below (UDP, ARP, routing, interfaces, lists, timers and mutexes): its internals are not part of this model; interface setters and sends are taken to succeed, as the client ignores their results.
- The time that a send takes: the source passes an ARP timeout of 1000 ms to UDP and sends before it arms the timer, so a send that has to wait delays what follows by as much; the model's sends take no time, on which the exact schedule and the 124 seconds of an unanswered request rest.
- Null pointers and invalid handles: references are non-null by type; only the null data pointer of an option is modelled.
- Allocation failure: allocations are taken to succeed.
- Memory lifetime (freeing a lease, the magic guard, teardown from within a timer callback): leases are taken to live.
- Default routes across renewals: a renewal overwrites the route handle, and what becomes of the old route depends on the routing module; the model keeps the handle only.
- Per-lease accessors, which return one field each under the lock (state, user data, server counts), and the DNS visitor, which has the shape of the NTP visitor without the stop.
- Module registration, the command-line tool and the build files hold no protocol logic.
- Leases.Lease.BeginPhase: assigns the state before the message is sent instead of after it; both happen under the lock, and the message does not depend on the state.
- Callbacks.TraceLanguage: speaks of callbacks in the order of the critical sections that decide on them, since they are delivered after the lock is released.
- Locks.NoDeadlock: visitors do not call back into the client, as `src/dmdhcp_dns.h:33-34` demands, and calls out of the client return.
- Progress.SilenceSettles: stray callbacks are excluded, since a callback without effect could recur for ever, and the application's callback is taken to return at once, since nothing in the client bounds it.
