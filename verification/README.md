# A verified model of mstpd

`mstpd` is a Multiple Spanning Tree daemon: it implements clause 13 of IEEE 802.1Q-2005, with parts of clause 17 of
IEEE 802.1D-2004, on top of a kernel bridge. This project models its protocol core, the bridge's object store, its
BPDU codec, its MD5/HMAC code and two codecs of its control tool in Dafny, and proves what they promise. `dafny verify
dfyconfig.toml` checks all of it.

What the modules are about:

- `types.dfy` holds the records of `mstp.h` and the bridge object. `vectors.dfy` is the order on priority vectors.
- `roles.dfy`, `role_theorems.dfy`, `network.dfy` and `agreement.dfy` are role selection: the routine, its meaning on
  one bridge (minimality, the clauses of section 13.26.23), and its consequences for any finite network (Root Ports
  never form a cycle and lead to the bridge that all bridges on the way call the Root; a settled connected network
  agrees on the bridge with the least identifier).
- `port_info.dfy`, `port_info_theorems.dfy`, `hearing.dfy` and `hops.dfy` are received information: `rcvInfo`, the Port
  Information machine, what becomes of two Designated Ports that hear each other, and the bound that remaining hops put
  on propagation in a region.
- `role_transitions.dfy`, `role_chains.dfy`, `transmit.dfy`, `topology_change.dfy` and `port_machines.dfy` are the other
  state machines. A machine is a function `Target` (the state entered next) and a function `Enter` (the entry actions);
  `Rest` repeats them, with a measure that proves that it ends; `Dry` is what a dry run reports, with the tests of its
  own that some routines make.
- `driver.dfy` puts the machines together as `__br_state_machines_run` does. `pass_stages.dfy` follows one port through
  the nine phases of a pass; `settling.dfy`, `down_ports.dfy` and `live_times.dfy` use it for what a pass leaves to do,
  for ports that go down, and for the times from which timers are started.
- `runs.dfy` has the events and their histories since the bridge was created; `steady_runs.dfy`, `settled_runs.dfy` and
  `timer_histories.dfy` are about every such history. `pending_deletion.dfy` has the one deletion that goes wrong.
- `bridge_object.dfy`, `info_routines.dfy`, `port_routines.dfy`, `role_routines.dfy` and `bridge_run.dfy` are the same
  machines and driver as recursive routines and loops that update the bridge object in place, proved to compute these
  functions.
- `witnesses.dfy` has the concrete states at which expected properties fail.
- `bpdu.dfy` and `bpdu_exchange.dfy` are BPDUs in octets, from the transmitting to the receiving port.
- `md5.dfy` and `config_tables.dfy` are the digest code, and the VID, FID and MSTID tables whose digest is cached.
- `list_head.dfy` and `mesh.dfy` are the intrusive lists, and the mesh of ports and trees built from them.
- `intervals.dfy`, `interval_text.dfy` and `bridge_frame.dfy` are the control tool's table display and lists, as
  intervals and as text, and the `add_bridges` frame.

Conventions. A per-tree port is a record in the row of its tree, and the bridge object's sequences are updated in place
of pointers; `mesh.dfy` models the pointers themselves. Calls into the kernel are an output trace. Times, octets and
cost sums have the widths of the source: `Message_Age` and rounded times wrap at 8 bits, costs at 32 bits.

Where the code and its own comments or the standard disagree, the model follows the code: on an external topology change
`setTcFlags` raises `proposed` of the MSTIs, not `rcvdTc`; `updtRcvdInfoWhile` tests the remaining hops of the tree it
is called for; the Repeated branch of `rcvInfo` exists and is unreachable; the number of MSTI messages of an MST BPDU is
taken from its length field and not compared with the frame size.

Properties that hold only under a condition, with the exact condition:

- A step towards the Root lowers the cost exactly when the cost sum does not wrap (`Network.StepIsCheaperIffNoWrap`). It
  improves the four components together exactly then, too, unless internal information comes from a port that fell back
  to STP, where the replaced regional root decides (`Network.StepImprovesIff`). Without a wrap Root Ports never cycle,
  in either case; with one they can (`Witnesses.RootPortsCycle`).
- A Designated Port that hears a better Designated message gives up its role exactly when the message has a lifetime
  left (`Hearing.HearingDecidesRole`, `Hearing.ExactlyOneStaysDesignated`); with an aged message both ends of a link
  stay Designated (`Witnesses.BothStayDesignated`).
- The Topology Change machine comes to rest exactly outside a family of MSTI states whose port-wide flags no state ahead
  consumes (`TopologyChange.RestsIff`, `Witnesses.ActiveWithTcnLoops`). In a part of that family the dry run reports
  nothing while the actual run never ends (`TopologyChange.DryIsWrongIff`, `Witnesses.QuietDryRunLoops`).
- A chain of role transitions ends exactly outside a family of Master Ports that open and close for ever
  (`RoleChains.ChainEndsIff`, `Witnesses.MasterPortSpins`).
- The topology change flag stays exact exactly when the started timer is not 0
  (`TopologyChange.NewTcWhileKeepsFlagIff`). A bridge that takes its Root from an internal BPDU with a Max Age and a
  Forward Delay of 0 starts a timer of 0 on a port that sends no RST BPDUs (`Witnesses.FlagWithoutTimer`); without such
  BPDUs no run starts a timer of 0 (`LiveTimes.PassKeepsLive`).
- Unlinking a port keeps the flag exact exactly if its timer was not the only one running
  (`TimerHistories.RemovalKeepsFlagIff`). The pass that precedes the unlinking stops the timer, provided that no update
  of the port's information was pending when it was deleted (`DownPorts.PassSteadies`,
  `TimerHistories.DeletionKeepsFlag`), and takes the Disabled role exactly then, unless the port had it
  (`DownPorts.DownPortIsDisabledIff`). No update is pending when the driver loop has ended by itself
  (`SteadyRuns.QuietHasNothingPending`); where the time limit ended it before, the deletion can leave the flag up
  without any timer (`PendingDeletion.PendingBridgeLeavesFlag`).
- Every machine but Bridge Detection is idempotent on every port; Bridge Detection is, exactly on the ports that do not
  flip (`Settling.RunSettles`). No run reaches a port that flips when the machine is run: every machine settles in every
  pass (`SettledRuns.EveryTurnOfEveryRunSettles`).
- A Hello Time of 0 would make the transmit machine cycle for ever (`Transmit.HelloZeroSpins`), and no run reaches one.
- An MSTI message of a Master Port is not decoded, every other one is (`BpduExchange.MstiIsDecoded`).
- `MD5Update` reads beyond its input exactly when the buffered bytes and the input are together too many for a word to
  count (`Md5.OverrunIff`). The daemon digests 8192 octets under a key of 16 (mstpd/src/mstp.c:88), so no call of its
  own gets there.
- An accepted `add_bridges` request of at least one bridge is a frame exactly when no length in it is negative
  (`BridgeFrame.AcceptedIsFrameIff`, `BridgeFrame.NegativeCountIsAccepted`).

## Model

| member | source | states |
|---|---|---|
| `Vectors.BetterOrSameIsLexicographic` | mstpd/src/mstp.c:1701-1749 | the field-by-field comparison is the lexicographic order on the component strings of section 13.9, for the CIST and for MSTIs |
| `Vectors.BetterOrSameTotal` | mstpd/src/mstp.c:1701-1749 | any two vectors are ordered |
| `Vectors.BetterOrSameTransitive` | mstpd/src/mstp.c:1701-1749 | the order is transitive |
| `Vectors.BetterOrSameAntisymmetric` | mstpd/src/mstp.c:1701-1749 | vectors as good as each other agree on every compared component |
| `Roles.FindRoot` | mstpd/src/mstp.c:2606-2651 | the loop over the ports returns the vector, port identifier and Root Port of the reference scan, whose minimality is `RoleTheorems.ScanIsMinimum` |
| `Roles.SetDesignated` | mstpd/src/mstp.c:2683-2710 | every port of the tree gets the designated vector and times, and nothing else changes |
| `Roles.SyncMaster` | mstpd/src/mstp.c:2322-2342 | exactly the MSTI ports with internal information lose agreement and must synchronise |
| `Roles.AssignRoles` | mstpd/src/mstp.c:2720-2841 | the loop assigns every port its role and asks the MSTIs for reselection where the CIST role changed |
| `Roles.UpdtRolesTree` | mstpd/src/mstp.c:2598-2843 | the whole routine on the bridge object equals one simultaneous update of all trees |
| `Roles.StagesCompose` | mstpd/src/mstp.c:2598-2843 | designating, resynchronising and assigning port after port, with their effects on other trees, add up to that simultaneous update |
| `RoleTheorems.ScanIsMinimum` | mstpd/src/mstp.c:2606-2651 | after any number of ports the scan holds a candidate that is as good as every candidate so far |
| `RoleTheorems.RootIsMinimum` | mstpd/src/mstp.c:2598-2651 | the root vector and root port identifier left in the tree are the minimum of the bridge's own vector and all eligible root path vectors |
| `RoleTheorems.MinimumIsUnique` | mstpd/src/mstp.c:2606-2651 | any other minimum agrees with it on every compared component |
| `RoleTheorems.RootPortIffOffer` | mstpd/src/mstp.c:2606-2651 | there is a Root Port if and only if an eligible port offers a vector as good as the bridge's own |
| `RoleTheorems.ExactlyOneClause` | mstpd/src/mstp.c:2720-2841 | exactly one of clauses f) to m) of section 13.26.23 applies to a port; it fixes the selected role and the request to update |
| `RoleTheorems.AtMostOneRootPort` | mstpd/src/mstp.c:2795-2800 | a port selected as Root Port is the one that supplied the minimum, so there is at most one |
| `RoleTheorems.NoMasterOnCist` | mstpd/src/mstp.c:2720-2760 | the CIST never selects the Master role |
| `Network.ComputePcost` | mstpd/src/mstp.c:95-102 | every computed path cost is between 1 and 200000000 |
| `Network.PathCost` | mstpd/src/mstp.c:460-479 | a path cost in force is never 0 |
| `Network.StepIsCheaperIffNoWrap` | mstpd/src/mstp.c:2618-2651 | the designated bridge has the same Root and a strictly lower (external, internal) cost than the bridge behind it if and only if the cost sum does not wrap |
| `Network.StepImprovesIff` | mstpd/src/mstp.c:2618-2710 | its vector is strictly better in (RootID, external cost, regional root, internal cost) if and only if the sum does not wrap, or, where internal information comes from a port that fell back to STP, the regional root it replaced was better than its own identifier |
| `Network.PathGetsCheaper` | mstpd/src/mstp.c:2606-2651 | along any path of Root Ports the costs get strictly lower |
| `Network.RootPortsNeverCycle` | mstpd/src/mstp.c:2606-2651 | in every finite network with current information and no wrapping sum, no path of Root Ports visits a bridge twice, also across ports that fell back to STP |
| `Network.HopAddsCost` | mstpd/src/mstp.c:2618-2640 | a bridge without Root Port is its own Root at cost 0; any other adds its hop cost to what its upstream neighbour advertises |
| `Network.RootPortsLeadToRoot` | mstpd/src/mstp.c:2606-2651 | from every bridge the Root Ports lead, in at most as many bridges as there are, to the bridge it calls the Root, and its external cost is the sum along the way |
| `Agreement.AllNameTheLeast` | mstpd/src/mstp.c:2606-2651 | in every connected network whose links are settled all bridges name the same Root, and it is the one with the least identifier |
| `Agreement.OnlyTheLeastHasNoRootPort` | mstpd/src/mstp.c:2606-2651 | there a bridge has no Root Port if and only if no other has a lesser identifier |
| `Witnesses.RootPortsCycle` | mstpd/src/mstp.c:2618-2640 | two bridges whose external costs add up to 2^32, each behind the Root Port of the other, where the step is not cheaper |
| `PortInfo.EnterControls` | mstpd/src/mstp.c:3328-3474 | what each entry action does to the variables that drive the machine, and that it changes only variables it owns |
| `PortInfo.StepDecreases` | mstpd/src/mstp.c:3477-3605 | every transition of the Port Information machine lowers a measure, for every message and port |
| `PortInfoTheorems.RestComesToRest` | mstpd/src/mstp.c:3328-3605 | a run ends in DISABLED, AGED or CURRENT with the matching information origin; expired received information survives only with an update or a message pending |
| `PortInfoTheorems.RestIsFramed` | mstpd/src/mstp.c:3328-3605 | a run changes only the machine's own variables, and on other trees only what an external message speaks for |
| `PortInfoTheorems.RestKeepsHello` | mstpd/src/mstp.c:3359-3406 | no run makes the Hello Time of a port 0 |
| `PortInfoTheorems.Classification` | mstpd/src/mstp.c:1955-2000 | a Designated message is Superior exactly when it is better or of the same designated address and port number, and Inferior otherwise; other roles likewise |
| `PortInfoTheorems.RepeatedIsNeverReported` | mstpd/src/mstp.c:1833-2000 | `rcvInfo` never reports RepeatedDesignated |
| `PortInfoTheorems.ExactlyOneSuperior` | mstpd/src/mstp.c:1955-2000 | of two ports of different origin that hear each other's vector exactly one hears a superior message |
| `Hearing.RunOnDesignated` | mstpd/src/mstp.c:3382-3406 | one run on a Designated message leaves the port on the message if it is superior and has a lifetime, aged if it is superior and has none, and on its own information otherwise |
| `Hearing.HearingDecidesRole` | mstpd/src/mstp.c:2529-2567 | after the run and role selection a settled Designated Port stays Designated if and only if the vector it heard is not better or the message has no lifetime left |
| `Hearing.ExactlyOneStaysDesignated` | mstpd/src/mstp.c:1955-2000 | when two settled Designated Ports hear each other, at least one stays Designated, and exactly one if and only if the message with the better vector has a lifetime left |
| `Witnesses.BothStayDesignated` | mstpd/src/mstp.c:2561-2566 | a Configuration BPDU as old as its Max Age: the better vector is aged at once and both ends stay Designated |
| `Witnesses.OneStaysDesignated` | mstpd/src/mstp.c:2561-2566 | one second younger, exactly one end stays Designated |
| `Hops.SuperiorRun` | mstpd/src/mstp.c:3382-3406 | a run that records a message of the region, from whatever state it starts, leaves it already aged when at most one hop is left |
| `Hops.RelaySpendsAHop` | mstpd/src/mstp.c:2653-2710 | a bridge that takes its Root from inside the region transmits exactly one hop less than it received |
| `Hops.HopsBoundPropagation` | mstpd/src/mstp.c:2529-2567 | information first sent with h remaining hops is accepted by at most h - 1 bridges of any chain, whatever states their machines start in |
| `RoleTransitions.StepDecreases` | mstpd/src/mstp.c:4119-4575 | every transition lowers a measure when the selected role is not Master, although LEARN and FORWARD raise what DISCARD lowers |
| `RoleTransitions.RestComesToRest` | mstpd/src/mstp.c:4119-4575 | a run ends only in six states, an immediate dry run reports nothing, and an active port has taken its selected role with that role's conditions met |
| `RoleTransitions.RestKeepsInv` | mstpd/src/mstp.c:3677-4117 | forward implies learn, the state family agrees with the role, and blocked families neither learn nor forward, after every run |
| `RoleTransitions.RestIsFramed` | mstpd/src/mstp.c:3677-4117 | a run changes only its own variables; of other ports it only raises `sync` and `reRoot` |
| `RoleTransitions.AgreementNeedsSync` | mstpd/src/mstp.c:4119-4575 | a run that gives agreement found every other port of the tree settled and in sync |
| `RoleTransitions.RaisedFlagsAreAnnounced` | mstpd/src/mstp.c:3857-3965 | a run that raises `agree` or `proposing` leaves the request to transmit raised |
| `RoleTransitions.DryIffChange` | mstpd/src/mstp.c:4119-4575 | the dry run reports a change if and only if the actual run changes something |
| `RoleChains.CachedValuesStayCurrent` | mstpd/src/mstp.c:4121-4150 | at every call of a chain, on the CIST and on MSTIs, the values that the outermost call keeps in static variables are those a fresh call would compute |
| `RoleChains.ChainEndsIff` | mstpd/src/mstp.c:4119-4575 | a chain of transitions ends if and only if the port is not one of a family of Master Ports, told by its flags, timers and the state of the other ports |
| `RoleChains.StepKeepsSpinning` | mstpd/src/mstp.c:4255-4334 | no transition of a Master Port enters or leaves that family |
| `Witnesses.MasterPortSpins` | mstpd/src/mstp.c:4255-4334 | a Master Port in sync that waits for its re-root timer, alone in its tree, never ends its chain |
| `RoleRoutines.ComputeAllSynced` | mstpd/src/mstp.c:4187-4219 | the early-leaving loop computes the condition allSynced |
| `RoleRoutines.ComputeReRooted` | mstpd/src/mstp.c:4385-4394 | the early-leaving loop computes the condition reRooted |
| `RoleRoutines.EnterState` | mstpd/src/mstp.c:3677-4117 | the entry routines, with their loops over the tree, update the row and the port in place as the entry actions say and nothing else |
| `RoleRoutines.NextState` | mstpd/src/mstp.c:4119-4575 | the switch over roles and states, written out with its conditions in the order of the source, finds the transition of the model |
| `RoleRoutines.PrtsmRun` | mstpd/src/mstp.c:4119-4575 | for any tree, the mutually recursive routines end and leave the bridge object as the run to rest says; a dry run changes nothing and reports exactly whether there is a transition |
| `Transmit.StepDecreases` | mstpd/src/mstp.c:3222-3315 | every transition of the transmit machine lowers a measure when the Hello Time is not 0 |
| `Transmit.HelloZeroSpins` | mstpd/src/mstp.c:3212-3315 | with a Hello Time of 0 the machine never stops |
| `Transmit.RestComesToRest` | mstpd/src/mstp.c:3127-3315 | a run ends idle, or initialised on a disabled port, with nothing left to do, and changes only its own variables |
| `Transmit.RestCountsTransmissions` | mstpd/src/mstp.c:3147-3181 | a run counts every transmission and never counts beyond the Transmit Hold Count |
| `Transmit.TransmissionRate` | mstpd/src/mstp.c:2847-2858 | any history with n ticks between counter resets makes at most Transmit Hold Count + n transmissions |
| `Transmit.InitDryIffChange` | mstpd/src/mstp.c:3127-3134 | the test that TRANSMIT_INIT makes in a dry run holds if and only if its entry changes something |
| `Transmit.DryIffChange` | mstpd/src/mstp.c:3222-3315 | the dry run reports a change if and only if the actual run changes the port or transmits |
| `PortMachines.FindMsti` | mstpd/src/mstp.c:2206-2221 | finds the first message that carries the tree number, or tells that none does |
| `PortMachines.DiscardDryIffChange` | mstpd/src/mstp.c:2882-2904 | the test that DISCARD makes in a dry run, with that of clearAllRcvdMsgs, holds if and only if its entry changes something |
| `PortMachines.PrsmDryIffChange` | mstpd/src/mstp.c:2921-2962 | the dry run of Port Receive reports a change if and only if the actual run makes one |
| `PortMachines.PpmsmDryIffChange` | mstpd/src/mstp.c:3002-3051 | the same for Port Protocol Migration, the Migrate Time not being 0 |
| `PortMachines.PpmsmComesToRest` | mstpd/src/mstp.c:2968-3051 | a run of Port Protocol Migration ends at rest and does not start sending RST BPDUs when forced to STP |
| `PortMachines.PstsmAligns` | mstpd/src/mstp.c:4582-4670 | after a run (learning, forwarding) equals (learn, forward) and the state records it |
| `PortMachines.PstsmDryIffChange` | mstpd/src/mstp.c:4633-4670 | the dry run reports a change if and only if the actual run changes the port or tells the kernel |
| `PortMachines.KernelFollows` | mstpd/src/mstp.c:4582-4631 | the kernel is told when its state changes and only then: every message changes the state, and the last one is the state it ends in |
| `TopologyChange.SetTopologyChange` | mstpd/src/mstp.c:1628-1660 | on request the flag is raised and a rise counted; otherwise a raised flag stays exactly when some timer of the tree runs; other trees are untouched |
| `TopologyChange.EnterControls` | mstpd/src/mstp.c:4676-4789 | what each entry action does to the variables that drive the machine, and that only owned variables change |
| `TopologyChange.StepDecreases` | mstpd/src/mstp.c:4791-4887 | every transition lowers a measure from every state that is not in the looping family, and stays outside it |
| `TopologyChange.RestComesToRest` | mstpd/src/mstp.c:4791-4887 | a run from outside the looping family ends INACTIVE, LEARNING or ACTIVE with no notification left unhandled |
| `TopologyChange.RestIsFramed` | mstpd/src/mstp.c:4676-4789 | of other ports a run raises only `tcProp` |
| `TopologyChange.RestsIff` | mstpd/src/mstp.c:4791-4887 | the machine comes to rest if and only if tree, state, role and flags are not in the looping family; on the CIST always |
| `TopologyChange.LearningDryIffChange` | mstpd/src/mstp.c:4690-4718 | the test that LEARNING makes in a dry run holds if and only if its entry changes something, on every tree |
| `TopologyChange.DryIsWrongIff` | mstpd/src/mstp.c:4791-4887 | dry run and actual run disagree in exactly one family, MSTI ports in LEARNING with a port-wide flag up, where the actual run does not end |
| `TopologyChange.DryIffChange` | mstpd/src/mstp.c:4791-4887 | wherever the machine comes to rest, the dry run reports a change if and only if the run makes one |
| `Witnesses.ActiveWithTcnLoops` | mstpd/src/mstp.c:4736-4760 | a Designated MSTI port in ACTIVE whose port has received a TCN never comes to rest |
| `Witnesses.QuietDryRunLoops` | mstpd/src/mstp.c:4690-4718 | an Alternate MSTI port in LEARNING whose port has received a TCN: the dry run reports nothing and the actual run never ends |
| `Witnesses.CistLeavesTcn` | mstpd/src/mstp.c:4791-4810 | the CIST entry of the port in these two is INACTIVE and at rest, so that its machine does not consume the TCN first |
| `TopologyChange.NewTcWhileKeepsFlagIff` | mstpd/src/mstp.c:1804-1830 | starting the timer keeps the flag exact if and only if some timer then runs |
| `Witnesses.FlagWithoutTimer` | mstpd/src/mstp.c:1804-1830 | after an internal BPDU with a Max Age and a Forward Delay of 0, a topology change on a port that sends STP BPDUs raises the flag and no timer runs |
| `TopologyChange.RestKeepsFlag` | mstpd/src/mstp.c:4676-4887 | a run keeps the flag exact and advances the counter by the number of rises |
| `TopologyChange.FlagIsExact` | mstpd/src/mstp.c:1623-1660 | over every history of ticks, begins and runs of a tree the flag holds exactly while some timer runs, and the counter has counted its rises; a begin needs no condition on the root times |
| `Driver.DryIffChange` | mstpd/src/mstp.c:31-36 | for every machine and port the dry run reports a change if and only if the actual run changes a variable of some port or tree, or emits something |
| `Settling.RunSettles` | mstpd/src/mstp.c:5029-5120 | from every state that keeps the invariant: after an actual run of a machine on a port its dry run reports nothing, except for Bridge Detection, exactly on ports whose settings and timers then call for the opposite transition (no pass reaches one, see below) |
| `Settling.SecondRunIsIdle` | mstpd/src/mstp.c:5029-5120 | so a second run of the same machine changes nothing if and only if the port is not such an exception |
| `Settling.DetectionWaits` | mstpd/src/mstp.c:2882-2962 | when a pass comes to Bridge Detection on a port, Port Receive and Port Protocol Migration have left edgeDelayWhile at the Migrate Time if the port is down or operEdge was just cleared, and otherwise operEdge agrees with the state |
| `Settling.EveryTurnSettles` | mstpd/src/mstp.c:3054-3121 | in a pass over a port whose operEdge agrees with its Bridge Detection state every machine settles, Bridge Detection included: after it has run on a port its dry run reports nothing |
| `SettledRuns.EveryTurnOfEveryRunSettles` | mstpd/src/mstp.c:3054-3121 | that state is kept by all events, so in every pass after every history since creation every machine settles on every port, with no exception |
| `Driver.SelectionDryIffChange` | mstpd/src/mstp.c:3637-3661 | the dry run of role selection reports a change if and only if the actual run makes one |
| `Driver.RunKeepsInv` | mstpd/src/mstp.c:5029-5120 | every machine keeps the invariant of the whole bridge |
| `Driver.SelectionKeepsInv` | mstpd/src/mstp.c:3625-3661 | role selection keeps it |
| `Driver.QuietPassIsFixpoint` | mstpd/src/mstp.c:5029-5152 | when the dry pass reports nothing the actual pass changes no variable of any port or tree and emits nothing |
| `Driver.PassAlignsPorts` | mstpd/src/mstp.c:5091-5108 | after every pass each port learns and forwards as its role says; no Alternate, Backup or Disabled Port does |
| `Runs.EventKeepsInv` | mstpd/src/mstp.c:274-1621 | ticks, begins, received BPDUs, link changes, port creation (which begins that port alone), port deletion (marking, the passes that see the port down, unlinking), switching the bridge on and off and every setting, with the restarts they cause, keep the invariant, in every sequence |
| `Runs.EveryRunEndsAligned` | mstpd/src/mstp.c:5029-5152 | after any history since creation, a pass leaves every port aligned, with its state family fitting its role, a Hello Time that is not 0 and a transmission counter within bounds; and a quiet bridge is at a fixpoint |
| `DownPorts.PassSteadies` | mstpd/src/mstp.c:4676-4688 | after a pass a port that is down, with no update pending, has the Disabled role, an INACTIVE Topology Change machine and a stopped timer |
| `DownPorts.DownPortIsDisabledIff` | mstpd/src/mstp.c:3328-3346 | within one pass a port that went down takes the Disabled role if and only if no update of its information was pending or it had that role |
| `LiveTimes.PassKeepsLive` | mstpd/src/mstp.c:2653-2710 | if no information, received or still to be read, has a Max Age and a Forward Delay of 0 both, a pass comes to the Topology Change machines with such root times and leaves it so |
| `SteadyRuns.EventKeepsGood` | mstpd/src/mstp.c:274-1621 | every event keeps a bridge on which ports that are down have the Disabled role and stopped timers, and on which all times that timers are started from are live |
| `SteadyRuns.QuietMeets` | mstpd/src/mstp.c:5125-5152 | when the driver loop has ended by itself, every event but an internal BPDU with times of 0 meets what the histories ask of it |
| `SteadyRuns.DeletedIsStopped` | mstpd/src/mstp.c:338-361 | a port is unlinked only when it is down and its timer has stopped |
| `PendingDeletion.PendingDeletionLeavesFlag` | mstpd/src/mstp.c:338-361 | deleting the only port while an update is pending on it and its timer runs leaves the flag up with no timer, after any number of passes |
| `PendingDeletion.PendingBridgeLeavesFlag` | mstpd/src/mstp.c:338-361 | such a bridge |
| `TimerHistories.PassKeepsFlag` | mstpd/src/mstp.c:5029-5120 | a pass of all machines keeps the topology change flag exact when the root times it selects are not both 0, which `LiveTimes.PassKeepsLive` ensures |
| `TimerHistories.BeginMakesFlagExact` | mstpd/src/mstp.c:4967-5020 | beginning all machines makes the flag exact from whatever it was |
| `TimerHistories.PortBegunKeepsFlag` | mstpd/src/mstp.c:4925-4962 | beginning one port of an enabled bridge keeps it exact |
| `TimerHistories.RemovalKeepsFlagIff` | mstpd/src/mstp.c:352-360 | unlinking a port, by itself, keeps it exact if and only if its timer was not the only one running |
| `TimerHistories.DeletionKeepsFlag` | mstpd/src/mstp.c:338-361 | deleting a port, with the passes before it is unlinked, keeps it exact when no update of its information was pending |
| `TimerHistories.FlagExactInEveryRun` | mstpd/src/mstp.c:1623-1660 | over every history of passes, seconds, begins, port events, deletions included, and settings since creation, in which no internal BPDU, and none that overtakes an unread internal one, has a Max Age and a Forward Delay that both round to 0, and no port goes down with an update pending, the flag of an enabled bridge is up exactly while some timer runs |
| `InfoRoutines.RcvInfo` | mstpd/src/mstp.c:1833-2000 | decoding field by field and classifying in place gives the message vector, times and verdict of the model, and touches only the port it works on |
| `InfoRoutines.RecordAgreement` | mstpd/src/mstp.c:2004-2046 | the assignments in place, with the loop over the further trees for external information, give all trees of the port their agreement at once |
| `InfoRoutines.EnterState` | mstpd/src/mstp.c:3328-3474 | every entry routine updates the column of the port in place as its entry actions say and leaves all other ports alone |
| `InfoRoutines.PismRun` | mstpd/src/mstp.c:3477-3605 | for any tree, the recursive routine ends and leaves the bridge object as the run to rest says; a dry run changes nothing and reports exactly whether there is a transition |
| `PortRoutines.SetRcvdMsgs` | mstpd/src/mstp.c:2189-2239 | the loops over trees and messages mark exactly the trees that have a message, with its index |
| `PortRoutines.PrsmRun` | mstpd/src/mstp.c:2882-2962 | receives or discards in place; the dry run is the test the code makes |
| `PortRoutines.PpmsmRun` | mstpd/src/mstp.c:2968-3051 | the recursion over states, written in place, ends as the run to rest says, with no transition left to report; a dry run is exact |
| `PortRoutines.BuildRstp` | mstpd/src/mstp.c:2402-2501 | the message built field by field, with a loop over the further trees, is the message of the model |
| `PortRoutines.PtsmRun` | mstpd/src/mstp.c:3127-3315 | the recursive routine ends, leaves the port as the run to rest says and adds its transmissions to the trace |
| `PortRoutines.PstsmRun` | mstpd/src/mstp.c:4582-4670 | the same for Port State Transition, with the messages to the kernel |
| `BridgeRun.TcsmRun` | mstpd/src/mstp.c:4676-4887 | the recursive Topology Change routines, whose actions touch all ports of the tree, end and leave what the run to rest says; the dry run is the test the code makes |
| `BridgeRun.PrssmRun` | mstpd/src/mstp.c:3637-3661 | the loops that clear the requests, assign the roles and mark them selected are role selection; a dry run changes nothing and is exact |
| `BridgeRun.RunMachine` | mstpd/src/mstp.c:5029-5120 | each machine's routines on the bridge object compute the run of the model, their dry run is exact, and after an actual run it reports nothing, Bridge Detection on a flipping port excepted |
| `BridgeRun.RunPhase` | mstpd/src/mstp.c:5029-5120 | one machine on all ports: a dry run leaves the bridge alone and reports a change if and only if some port has one |
| `BridgeRun.StateMachinesRun` | mstpd/src/mstp.c:5029-5120 | the whole pass on the bridge object is the pass of the model; the dry pass is exact |
| `BridgeRun.BrStateMachinesRun` | mstpd/src/mstp.c:5125-5152 | the driver loop, which looks at the clock after each pass, makes actual passes while the dry pass reports something and there is time; it stops before the limit only in a state that a further pass would not change |
| `BpduCodec.MemLessId` | mstpd/src/mstp.h:37-42 | comparing identifiers octet by octet is comparing priority and then address |
| `BpduCodec.MemLess4` | mstpd/src/mstp.h:37-42 | comparing big-endian costs octet by octet is comparing the numbers |
| `BpduCodec.FlagsRoundTrip` | mstpd/src/mstp.h:222-237 | the flag octet, with its two-bit role, is read as it was written |
| `BpduCodec.CommonRoundTrip` | mstpd/src/mstp.h:133-155 | so are the fields that all BPDUs with information share |
| `BpduCodec.MstPartRoundTrip` | mstpd/src/mstp.h:156-164 | so are the configuration identifier and the internal CIST fields |
| `BpduCodec.MstiRoundTrip` | mstpd/src/mstp.h:120-131 | so is an MSTI configuration message |
| `BpduCodec.TcnIsReceived` | mstpd/src/mstp.c:615-628 | a TCN BPDU passes validation as a TCN BPDU |
| `BpduCodec.ConfigIsReceived` | mstpd/src/mstp.c:629-638 | a Configuration BPDU passes as one, with all its fields |
| `BpduCodec.RstIsReceived` | mstpd/src/mstp.c:639-650 | an RST BPDU passes as one, with all its fields |
| `BpduCodec.MstIsReceived` | mstpd/src/mstp.c:651-698 | an MST BPDU passes with the right number of MSTI messages, all fields and all messages, whatever the buffer held before |
| `BpduExchange.TxMstp` | mstpd/src/mstp.c:2402-2501 | filling the buffer, with a loop over the further trees of the port, produces the frame of the message and its size |
| `BpduExchange.FrameArrives` | mstpd/src/mstp.c:614-699 | the frame of a well-formed sender arrives as its message |
| `BpduExchange.CistIsDecoded` | mstpd/src/mstp.c:1852-1920 | a bridge of the same region decodes the sender's CIST vector, times and role |
| `BpduExchange.MstiIsDecoded` | mstpd/src/mstp.c:1921-1953 | each MSTI that both have finds its own message and decodes the sender's vector, hops and role, exactly unless the role is Master |
| `BpduExchange.UnknownTreeHearsNothing` | mstpd/src/mstp.c:2189-2239 | a tree that the sender does not have gets no message |
| `Md5Spec.DecodeEncode` | mstpd/src/hmac_md5.c:112-141 | words survive encoding to octets and decoding |
| `Md5Spec.ZeroCountIsLeast` | mstpd/src/hmac_md5.c:299-302 | the padding is the shortest that leaves room for exactly the length |
| `Md5Spec.ShortPiece` | mstpd/src/hmac_md5.c:278-283 | a piece that completes no block only extends the tail |
| `Md5Spec.NextBlock` | mstpd/src/hmac_md5.c:270-277 | a piece that completes a block is mixed in together with the tail |
| `Md5.Encode` | mstpd/src/hmac_md5.c:112-126 | the loop writes the little-endian octets of the words and nothing else |
| `Md5.Decode` | mstpd/src/hmac_md5.c:131-141 | the loop reads the little-endian words |
| `Md5.Transform` | mstpd/src/hmac_md5.c:145-233 | the 64 unrolled steps, which name the registers in turn, compute the compression function, in which the registers trade places |
| `Md5.Context.Init` | mstpd/src/hmac_md5.c:237-246 | a reused context holds the empty message |
| `Md5.Context.Count` | mstpd/src/hmac_md5.c:262-265 | the two words count the bits modulo 2^64 across the carry |
| `Md5.Context.Update` | mstpd/src/hmac_md5.c:252-284 | however a message is split into pieces, the context holds the fold over all complete blocks, the tail, and the bit count of what was fed so far, unless the loop would read beyond the input |
| `Md5.OverrunIff` | mstpd/src/hmac_md5.c:274-276 | the loop reads beyond the input if and only if the buffered bytes and the input are together 2^32 or more |
| `Md5.Context.Final` | mstpd/src/hmac_md5.c:289-313 | the digest is that of the message padded as in sections 3.1 and 3.2 of RFC 1321 |
| `Md5.HmacMd5` | mstpd/src/hmac_md5.c:318-387 | equals HMAC of section 2 of RFC 2104 for short and long keys, although the inner digest is overwritten in place |
| `ConfigTables.RequestKeepsCoherence` | mstpd/src/mstp.c:1295-1601 | every setter, creation and deletion keeps legal tables, existing trees and the digest of the tables |
| `ConfigTables.AfterAll` | mstpd/src/mstp.c:1295-1601 | over every sequence of requests since creation the cached digest is the HMAC of the composed table, every VID has a legal FID, every FID an existing tree, and there are at most 64 ordered trees |
| `ConfigTables.VidTestIsExact` | mstpd/src/mstp.c:1305-1308 | the change test holds exactly when the composed table changes |
| `ConfigTables.FidTestIsExact` | mstpd/src/mstp.c:1374-1385 | the change test and the search for a using VID hold together exactly when the composed table changes |
| `ConfigTables.Store.RecalcConfigDigest` | mstpd/src/mstp.c:78-90 | computes the HMAC of the composed table in big-endian octets |
| `ConfigTables.Store.SetVid2Fid` | mstpd/src/mstp.c:1295-1315 | recomputing on a detected change has the effect of recomputing always; restarts happen exactly when a VID changes its tree |
| `ConfigTables.Store.SetAllVids2Fids` | mstpd/src/mstp.c:1318-1342 | the same for all VIDs at once, with values that are too large replaced |
| `ConfigTables.Store.SetFid2Mstid` | mstpd/src/mstp.c:1345-1390 | the same for one FID; unknown trees are refused |
| `ConfigTables.Store.SetAllFids2Mstids` | mstpd/src/mstp.c:1393-1446 | the same for all FIDs at once; nothing changes when one names an unknown tree |
| `ConfigTables.Store.CreateMstiTree` | mstpd/src/mstp.c:1466-1542 | adds the tree in order, up to 64 with the CIST, and needs no new digest |
| `ConfigTables.Store.DeleteMstiTree` | mstpd/src/mstp.c:1545-1601 | refuses while a FID is allocated, and needs no new digest |
| `ListHead.AddingInserts` | mstpd/src/list.h:81-115 | linking an unused entry behind position k inserts it there, keeps the ring well formed and touches no other list |
| `ListHead.DeletingCuts` | mstpd/src/list.h:125-142 | unlinking an entry cuts it out, keeps the ring well formed and touches no other list |
| `ListHead.OtherListKept` | mstpd/src/list.h:81-142 | a change confined to one list leaves every other list as it was |
| `ListHead.Memory.ListAdd` | mstpd/src/list.h:99-102 | the new entry comes right after the given one |
| `ListHead.Memory.ListAddTail` | mstpd/src/list.h:112-115 | the new entry comes last |
| `ListHead.Memory.ListDel` | mstpd/src/list.h:137-142 | the entry is gone and its links are unusable |
| `ListHead.Memory.Next` | mstpd/src/list.h:286-289 | iteration visits the entries in order and comes back to the head |
| `Mesh.OnePerPair` | mstpd/src/mstp.c:274-390 | in a mesh there is exactly one per-tree port for each pair of port and tree, linked in both lists |
| `Mesh.Store.constructor` | mstpd/src/mstp.c:235-272 | a new bridge is a mesh with the CIST and no port |
| `Mesh.Store.CreatePort` | mstpd/src/mstp.c:309-332 | adds the port at the end of every list and keeps the mesh |
| `Mesh.Store.DeletePort` | mstpd/src/mstp.c:338-361 | removes the port from every list, while iterating over it, and keeps the mesh |
| `Mesh.Store.CreateMsti` | mstpd/src/mstp.c:1466-1542 | keeps the mesh, with the lists of all ports in the order of MSTIDs, and refuses a 65th tree |
| `Mesh.Store.DeleteMsti` | mstpd/src/mstp.c:1545-1601 | refuses while a FID is allocated to the tree, else removes the tree from every list, while iterating over it, and keeps the mesh |
| `Intervals.TakeRuns` | mstpd/src/ctl_main.c:2037-2058 | the destructive scan returns the maximal, disjoint, increasing intervals that cover exactly the value, and erases it |
| `Intervals.Show` | mstpd/src/ctl_main.c:2016-2064 | terminates for every table; one line for each value in use, in increasing order, with its maximal intervals |
| `Intervals.RunsAreUnique` | mstpd/src/ctl_main.c:2037-2058 | the intervals of a value are determined by the table |
| `Intervals.DisplayIsUnique` | mstpd/src/ctl_main.c:2016-2064 | a table has exactly one display |
| `Intervals.AssignItems` | mstpd/src/ctl_main.c:2206-2261 | accepts exactly when the value and all indices are in range; assigns the items up to the first bad one, also reversed intervals and `*` |
| `IntervalText.ParseList` | mstpd/src/ctl_main.c:2175-2264 | on the text: accepts exactly when there is a colon, a legal value before it and only well-formed items in range after it, and assigns as above |
| `IntervalText.CutItems` | mstpd/src/ctl_main.c:2206-2241 | the loops cut the list at its commas and read each item |
| `Intervals.ReplayRestores` | mstpd/src/ctl_main.c:2258-2259 | giving the displayed lines back to the parser restores the table from one filled with 0xFFFF, except for values too large to be displayed |
| `IntervalText.LineRoundTrip` | mstpd/src/ctl_main.c:2037-2058 | a printed line is read back as its value and intervals |
| `IntervalText.TextsRestore` | mstpd/src/ctl_main.c:2175-2264 | reading back the printed lines of a display restores the table from one filled with 0xFFFF |
| `BridgeFrame.Serialize` | mstpd/src/ctl_main.c:2700-2727 | the client's buffer is the frame of the bridges and their interface lists |
| `BridgeFrame.HandleAddBridges` | mstpd/src/ctl_socket_server.c:88-140 | accepts exactly the acceptable requests, with lengths of either sign and the wrap-around of the 32-bit sizes, and points each list at its offset |
| `BridgeFrame.FrameRoundTrip` | mstpd/src/ctl_socket_server.c:100-140 | every frame of at least one bridge is accepted, with its bridges and lists |
| `BridgeFrame.AcceptedIsFrameIff` | mstpd/src/ctl_socket_server.c:109-127 | an accepted request of at least one bridge has no byte left over, and is a frame if and only if no length on the way is negative |
| `BridgeFrame.NegativeCountIsAccepted` | mstpd/src/ctl_socket_server.c:109-127 | an accepted request that is no frame: its second list starts before its first |
| `BridgeFrame.OffsetsGiveLists` | mstpd/src/ctl_socket_server.c:134-139 | at each reconstructed offset is the list with its count, inside the buffer |
| `BridgeFrame.NoBridges` | mstpd/src/ctl_socket_server.c:103-109 | a request without bridges is accepted exactly when something follows the count, which the client never sends |

## Left out

- RoleTransitions.RestComesToRest: is about ports whose selected role and state are not Master; for Master Ports `RoleChains.ChainEndsIff` tells exactly when a chain ends.
- BridgeRun.BrStateMachinesRun: the wall-clock limit is a bound on the number of passes, and convergence is not claimed.
- Md5.Context.Update: the compression function is a parameter of the context (`Md5.Transform` computes that of MD5).
- Md5.Transform: that the table values are the sines of RFC 1321 is not proved.
- IntervalText.ParseList: numbers beyond the range of `int`, for which `sscanf` is undefined, are read as they are written; the label before a displayed line is not part of its text.
- BridgeFrame.HandleAddBridges: requests whose lengths lead to the place just before the buffer, where the code would read outside it, are excluded; that the allocation of a negative number of pointers fails is taken for granted.
- TimerHistories.FlagExactInEveryRun: histories with an internal BPDU (or one that overtakes an unread internal one) whose Max Age and Forward Delay both round to 0, or in which a port goes down while an update of its information is pending, are excluded, since the flag is then inexact (`Witnesses.FlagWithoutTimer`, `PendingDeletion.PendingBridgeLeavesFlag`).
- Settling.RunSettles: speaks of single states; that no run reaches its exception is `SettledRuns.EveryTurnOfEveryRunSettles`.
- BridgeRun.TcsmRun: is about a bridge whose only tree is the CIST; the machine on MSTIs is in `TopologyChange`.
- Runs.EventKeepsInv: the driver and its histories are those of a bridge that has only the CIST; MSTIs are covered tree by tree in the other modules.
- Flushing is synchronous, as in the default driver; the branch that waits for the callback is not modelled.
- Statistics counters, port and bridge names, up time, BPDU guard, logging and the out-of-memory branches.
- The kernel and driver effects behind the output trace: netlink, sysfs, packet sockets, timers.
- Status queries and the commands of the control tool other than those named above.
- The other packages of the repository: they contain no protocol or codec of comparable difficulty.
