/** Every run of a bridge that has only the CIST: external events and passes in any order. */
module Runs {
  import opened Types
  import opened Driver
  import RT = RoleTransitions
  import PI = PortInfo
  import PIT = PortInfoTheorems
  import PM = PortMachines
  import TC = TopologyChange

  function Dec(n: nat): nat {
    if n > 0 then n - 1 else 0
  }

  // ---- One second ----

  function TickedPort(prt: Port): Port {
    prt.(helloWhen := Dec(prt.helloWhen), mdelayWhile := Dec(prt.mdelayWhile),
         edgeDelayWhile := Dec(prt.edgeDelayWhile),
         txCount := Dec(prt.txCount), brAssuRcvdInfoWhile := Dec(prt.brAssuRcvdInfoWhile),
         rapidAgeingWhile := Dec(prt.rapidAgeingWhile))
  }

  function TickedEntry(p: Ptp): Ptp {
    p.(fdWhile := Dec(p.fdWhile), rrWhile := Dec(p.rrWhile), rbWhile := Dec(p.rbWhile),
       rcvdInfoWhile := Dec(p.rcvdInfoWhile))
  }

  /** `PTSM_tick` and the end of rapid ageing, on port `i`. */
  ghost function TickPort(b: BState, i: nat): (r: BState)
    requires i < |b.ports| == |b.tree.ptps|
    ensures |r.ports| == |b.ports| == |r.tree.ptps|
  {
    var prt := b.ports[i];
    var t := b.tree.(ptps := b.tree.ptps[i := TickedEntry(b.tree.ptps[i])]);
    b.(ports := b.ports[i := TickedPort(prt)], tree := TC.TickTimer(t, i),
       out := if prt.rapidAgeingWhile == 1 && prt.deleted.Off? then b.out + [SetAgeing(i, b.cfg.ageingTime)] else b.out)
  }

  lemma TickPortKeepsInv(b: BState, i: nat)
    requires Inv(b) && i < |b.ports|
    ensures Inv(TickPort(b, i)) && TickPort(b, i).cfg == b.cfg
  {
    var r := TickPort(b, i);
    forall j | 0 <= j < |b.ports|
      ensures EntryAt(r, j)
    {
      assert EntryAt(b, j);
      var q := TickedEntry(b.tree.ptps[i]).(tcWhile := r.tree.ptps[i].tcWhile);
      assert r.tree.ptps[j] == if j == i then q else b.tree.ptps[j];
    }
  }

  ghost function Tick(b: BState, i: nat): BState {
    if i < |b.ports| == |b.tree.ptps| then TickPort(b, i) else b
  }

  lemma TickIsHarmless()
    ensures Harmless(Tick)
  {
    forall b, i: nat | Inv(b) && i < |b.ports|
      ensures Inv(Tick(b, i)) && |Tick(b, i).ports| == |b.ports| && Tick(b, i).cfg == b.cfg
    {
      TickPortKeepsInv(b, i);
    }
  }

  /** `MSTP_IN_one_second` on an enabled bridge, without the passes that follow it. */
  ghost function Ticked(b: BState): (r: BState)
    ensures Inv(b) ==> Inv(r) && r.cfg == b.cfg
  {
    TicksKeepInv(Aged(b));
    AgedKeepsInv(b);
    InTurn(Tick, Aged(b), |b.ports|)
  }

  /** One more second without topology change. */
  function Aged(b: BState): BState {
    b.(tree := if b.tree.topologyChange then b.tree else b.tree.(timeSinceTc := b.tree.timeSinceTc + 1))
  }

  lemma AgedKeepsInv(b: BState)
    ensures Inv(b) ==> Inv(Aged(b))
  {
    if Inv(b) { SameEntriesKeepInv(b, Aged(b)); }
  }

  lemma TicksKeepInv(b: BState)
    ensures Inv(b) ==> var r := InTurn(Tick, b, |b.ports|); Inv(r) && |r.ports| == |b.ports| && r.cfg == b.cfg
  {
    TickIsHarmless();
    if Inv(b) { InTurnKeepsInv(Tick, b, |b.ports|); }
  }

  // ---- The begin state ----

  function BegunPort(prt: Port, cfg: Config): Port {
    var p1 := prt.(prsm := RxDiscard, rcvdBpdu := Off, rcvdRSTP := Off, rcvdSTP := Off,
                   edgeDelayWhile := cfg.migrateTime);
    var p2 := PM.PpmsmEnter(p1, CheckingRstp, cfg);
    p2.(bdsm := if prt.adminEdge.On? then Edge else NotEdge, operEdge := prt.adminEdge,
        ptsm := TransmitInit, newInfo := On, newInfoMsti := On, txCount := 0)
  }

  /** Entry of a port after the begin actions of its information machine. */
  function InfoBegun(p: Ptp, prt: Port, cfg: Config): Ptp {
    PI.Enter(PI.Column(prt, [p.(rcvdMsg := Off)]), 0, PiDisabled, cfg).ptps[0]
  }

  /** Entry of a port after those of its role and state machines. */
  function RolesBegun(p: Ptp, prt: Port, cfg: Config): Ptp {
    PM.PstsmEnter(RT.Act(p, InitPort, prt, RT.EnvOf(cfg, p, prt, true)), PsDiscarding, prt.deleted)
  }

  function BegunEntry(p: Ptp, prt: Port, cfg: Config): Ptp {
    RolesBegun(InfoBegun(p, prt, cfg).(selectedRole := RoleDisabled), prt, cfg)
  }

  lemma InfoBegunOk(p: Ptp, prt: Port, cfg: Config)
    requires EntryOk(p)
    ensures EntryOk(InfoBegun(p, prt, cfg)) && InfoBegun(p, prt, cfg).tcWhile == p.tcWhile
  {
  }

  lemma RolesBegunOk(p: Ptp, prt: Port, cfg: Config)
    requires EntryOk(p)
    ensures EntryOk(RolesBegun(p, prt, cfg)) && RolesBegun(p, prt, cfg).tcWhile == p.tcWhile
  {
  }

  lemma BegunEntryOk(p: Ptp, prt: Port, cfg: Config)
    requires EntryOk(p)
    ensures EntryOk(BegunEntry(p, prt, cfg)) && BegunEntry(p, prt, cfg).tcWhile == p.tcWhile
  {
    InfoBegunOk(p, prt, cfg);
    RolesBegunOk(InfoBegun(p, prt, cfg).(selectedRole := RoleDisabled), prt, cfg);
  }

  /** TCSM_begin on port `i`. */
  ghost function TcBegunAt(b: BState, i: nat): (r: BState)
    requires i < |b.ports| == |b.tree.ptps|
    ensures |r.ports| == |b.ports| == |r.tree.ptps|
  {
    var r := TcBegunCtx(b, i);
    BState(b.cfg, b.ports[i := r.prt], r.tree, r.out)
  }

  ghost function TcBegunCtx(b: BState, i: nat): (r: TC.Ctx)
    requires i < |b.ports| == |b.tree.ptps|
    ensures |r.tree.ptps| == |b.ports|
  {
    TC.Enter(TC.Ctx(b.tree, b.ports[i], b.out), i, TcInactive, TC.EnvOf(b.cfg, b.tree.ptps[i]), i)
  }

  lemma TcBegunAtKeepsInv(b: BState, i: nat)
    requires Inv(b) && i < |b.ports|
    ensures Inv(TcBegunAt(b, i)) && |TcBegunAt(b, i).ports| == |b.ports| && TcBegunAt(b, i).cfg == b.cfg
  {
    assert EntryAt(b, i);
    var c, env := TC.Ctx(b.tree, b.ports[i], b.out), TC.EnvOf(b.cfg, b.tree.ptps[i]);
    TC.EnterControls(c, i, TcInactive, env, i);
    FramedTcKeepsInv(b, TC.Enter(c, i, TcInactive, env, i), i);
  }

  ghost function TcBegin(b: BState, i: nat): BState {
    if i < |b.ports| == |b.tree.ptps| then TcBegunAt(b, i) else b
  }

  lemma TcBeginIsHarmless()
    ensures Harmless(TcBegin)
  {
    forall b, i: nat | Inv(b) && i < |b.ports|
      ensures Inv(TcBegin(b, i)) && |TcBegin(b, i).ports| == |b.ports| && TcBegin(b, i).cfg == b.cfg
    {
      TcBegunAtKeepsInv(b, i);
    }
  }

  function StateChanges(b: BState, n: nat): seq<Output>
    requires n <= |b.ports| == |b.tree.ptps|
  {
    if n == 0 then []
    else StateChanges(b, n - 1) + PM.PstsmSent(b.tree.ptps[n - 1], PsDiscarding, b.ports[n - 1].deleted, n - 1)
  }

  /** All ports begun, except for the Topology Change machines. */
  function BegunAll(b: BState): (r: BState)
    ensures |b.ports| == |b.tree.ptps| ==> |r.ports| == |b.ports| == |r.tree.ptps| && r.cfg == b.cfg
  {
    if |b.ports| != |b.tree.ptps| then b
    else
      BState(b.cfg,
             seq(|b.ports|, i requires 0 <= i < |b.ports| => BegunPort(b.ports[i], b.cfg)),
             b.tree.(prssm := InitTree,
                     ptps := seq(|b.ports|, i requires 0 <= i < |b.ports| =>
                                   BegunEntry(b.tree.ptps[i], BegunPort(b.ports[i], b.cfg), b.cfg))),
             b.out + StateChanges(b, |b.ports|))
  }

  lemma BegunAllKeepsInv(b: BState)
    requires Inv(b)
    ensures Inv(BegunAll(b))
  {
    var r := BegunAll(b);
    forall i | 0 <= i < |b.ports|
      ensures EntryAt(r, i)
    {
      assert EntryAt(b, i);
      BegunEntryOk(b.tree.ptps[i], BegunPort(b.ports[i], b.cfg), b.cfg);
    }
  }

  /** `br_state_machines_begin`, without the passes that follow it. */
  ghost function Begin(b: BState): (r: BState)
    ensures Inv(b) ==> Inv(r) && |r.ports| == |b.ports| && r.cfg == b.cfg
  {
    TcBeginKeepsInv(b);
    InTurn(TcBegin, BegunAll(b), |b.ports|)
  }

  lemma TcBeginKeepsInv(b: BState)
    ensures Inv(b) ==>
              var r := InTurn(TcBegin, BegunAll(b), |b.ports|); Inv(r) && |r.ports| == |b.ports| && r.cfg == b.cfg
  {
    TcBeginIsHarmless();
    if Inv(b) {
      BegunAllKeepsInv(b);
      InTurnKeepsInv(TcBegin, BegunAll(b), |b.ports|);
    }
  }

  /** The information machine of a single port begins. */
  function InfoBegunAt(b: BState, i: nat): BState {
    if !(i < |b.ports| == |b.tree.ptps|) then b
    else
      var prt := BegunPort(b.ports[i], b.cfg);
      b.(ports := b.ports[i := prt], tree := b.tree.(ptps := b.tree.ptps[i := InfoBegun(b.tree.ptps[i], prt, b.cfg)]))
  }

  /** The role and state machines of a single port begin. */
  function RolesBegunAt(b: BState, i: nat): BState {
    if !(i < |b.ports| == |b.tree.ptps|) then b
    else
      var p, prt := b.tree.ptps[i], b.ports[i];
      b.(tree := b.tree.(ptps := b.tree.ptps[i := RolesBegun(p, prt, b.cfg)]),
         out := b.out + PM.PstsmSent(p, PsDiscarding, prt.deleted, i))
  }

  lemma InfoBegunAtKeepsInv(b: BState, i: nat)
    requires Inv(b) && i < |b.ports|
    ensures Inv(InfoBegunAt(b, i))
  {
    assert EntryAt(b, i);
    var prt := BegunPort(b.ports[i], b.cfg);
    InfoBegunOk(b.tree.ptps[i], prt, b.cfg);
    PutKeepsInv(b, i, prt, InfoBegun(b.tree.ptps[i], prt, b.cfg), b.out);
  }

  lemma RolesBegunAtKeepsInv(b: BState, i: nat)
    requires Inv(b) && i < |b.ports|
    ensures Inv(RolesBegunAt(b, i))
  {
    assert EntryAt(b, i);
    RolesBegunOk(b.tree.ptps[i], b.ports[i], b.cfg);
    assert b.ports[i := b.ports[i]] == b.ports;
    PutKeepsInv(b, i, b.ports[i], RolesBegun(b.tree.ptps[i], b.ports[i], b.cfg), RolesBegunAt(b, i).out);
  }

  /** `prt_state_machines_begin`, without the passes that follow it: one port begins, role selection runs on
      the whole tree, and the other ports are left as they are. */
  ghost function PortBegun(b: BState, i: nat): (r: BState)
    ensures Inv(b) && i < |b.ports| ==> Inv(r) && |r.ports| == |b.ports| && r.cfg == b.cfg
  {
    PortBegunKeepsInv(b, i);
    TcBegin(RolesBegunAt(SelectRoles(InfoBegunAt(b, i)), i), i)
  }

  lemma PortBegunKeepsInv(b: BState, i: nat)
    ensures Inv(b) && i < |b.ports| ==>
              var r := TcBegin(RolesBegunAt(SelectRoles(InfoBegunAt(b, i)), i), i);
              Inv(r) && |r.ports| == |b.ports| && r.cfg == b.cfg
  {
    if Inv(b) && i < |b.ports| {
      InfoBegunAtKeepsInv(b, i);
      var b1 := InfoBegunAt(b, i);
      SelectionKeepsInv(b1);
      var b2 := SelectRoles(b1);
      RolesBegunAtKeepsInv(b2, i);
      TcBegunAtKeepsInv(RolesBegunAt(b2, i), i);
    }
  }

  // ---- External events ----

  /** What happens to ports. `passes` is the number of passes that the driver loop makes, beyond the first, before a
      deleted port is unlinked. */
  datatype PortEvent =
    | RxBpdu(i: nat, msg: Bpdu, mstis: nat)
    | PortUp(i: nat, externalCost: u32, internalCost: u32, pointToPoint: Flag)
    | PortDown(i: nat)
    | DeletePort(i: nat, passes: nat)
    | AddPort(portId: u16, internalCost: u32)
    | Mcheck(i: nat)

  /** What an administrator can set. */
  datatype Setting =
    | EnableBridge(up: bool)
    | BridgeAddress(mac: u48)
    | BridgePriority(priority: u8)
    | BridgeTimes(maxHops: u8, forwardDelay: u8, maxAge: u8, hello: u8)
    | TxHoldCount(n: nat)
    | ForceVersion(v: Version)
    | ConfigId(id: seq<u8>)
    | AgeingTime(seconds: nat)
    | PortPriority(i: nat, priority: u8, internalCost: u32)
    | PortLink(i: nat, externalCost: u32, pointToPoint: Flag)
    | PortConfig(i: nat, adminEdge: Flag, autoEdge: Flag, restrictedRole: Flag, restrictedTcn: Flag, networkPort: Flag,
                 dontTxmt: Flag, filter: Flag)

  /** Inputs of the daemon. `RunPass` is one actual pass of the driver loop, however many of them follow an input. */
  datatype Event = RunPass | OneSecond | BeginAll | OnPorts(p: PortEvent) | Configure(s: Setting)

  predicate Exists(p: PortEvent, b: BState) {
    p.AddPort? || p.i < |b.ports|
  }

  /** The ranges that the configuration commands check. (They also check how Max Age relates to Forward Delay;
      histories without that restriction are included here.) */
  predicate InRange(s: Setting, b: BState) {
    match s
    case BridgeTimes(hops, fd, ma, hello) => 6 <= hops <= 40 && 4 <= fd <= 30 && 6 <= ma <= 40 && 1 <= hello <= 10
    case TxHoldCount(n) => 1 <= n <= 10
    case BridgePriority(p) => p <= 15
    case PortPriority(i, p, _) => i < |b.ports| && p <= 15
    case PortLink(i, _, _) => i < |b.ports|
    case PortConfig(i, _, _, _, _, _, _, _) => i < |b.ports|
    case AgeingTime(n) => 10 <= n <= 1_000_000
    case EnableBridge(_) | BridgeAddress(_) | ForceVersion(_) | ConfigId(_) => true
  }

  const NO_VEC := Vec(NO_ID, 0, NO_ID, 0, NO_ID, 0)
  const NO_TIMES := Times(0, 0, 0, 0, 0)
  const NO_BPDU := Bpdu(ProtoSTP, TypeConfig, NO_FLAGS, NO_ID, 0, NO_ID, 0, WireTime(0, 0), WireTime(0, 0),
                        WireTime(0, 0),
                        WireTime(0, 0), [], 0, NO_ID, 0, NoMstis())

  /** `create_ptp`: zeroed memory, the bridge's own vector and times, a default priority. */
  function CreatedEntry(tree: Tree, portId: u16, internalCost: u32): Ptp {
    Ptp(tree.mstid, BrDisabled, 0, 0, 0, 0, 0, Off, Off, Off, Off, Off, Off, Off, OtherInfo, IoDisabled,
        Off, Off, Off, Off, Off, Off, Off, Off, Off, Off, Off, Off, portId, RoleDisabled, RoleDisabled,
        NO_VEC, NO_VEC, tree.bridgePriority, NO_TIMES, NO_TIMES, tree.bridgeTimes,
        Off, Off, internalCost, 0, PiDisabled, InitPort, PsDiscarding, TcInactive)
  }

  function CreatedPort(): Port {
    Port(0, 0, 0, 0, 0, 0, Off, Off, Off, Off, Off, Off, Off, Off, Off, Off, Off, Off, Off, Off, Off,
         Off, Off, MAX_PATH_COST, Off, On, Off, Off, Off, Off, Off, NO_BPDU, 0,
         RxDiscard, CheckingRstp, Edge, TransmitInit)
  }

  function OnPort(b: BState, i: nat, prt: Port): BState
    requires i < |b.ports|
  {
    b.(ports := b.ports[i := prt])
  }

  /** A BPDU that passed validation is kept for the receive machine unless the previous one is still unread. */
  function Received(b: BState, i: nat, msg: Bpdu, mstis: nat): BState
    requires i < |b.ports| == |b.tree.ptps|
  {
    var prt := b.ports[i];
    if prt.bpduFilter.On? || !b.cfg.enabled || prt.rcvdBpdu.On? then b
    else OnPort(b, i, prt.(bpdu := msg, numMstis := mstis, rcvdBpdu := On, baInconsistent := Off,
                           brAssuRcvdInfoWhile := 3 * b.tree.ptps[i].portTimes.hello))
  }

  function Upped(b: BState, i: nat, externalCost: u32, internalCost: u32, p2p: Flag): BState
    requires i < |b.ports| == |b.tree.ptps|
  {
    var prt := b.ports[i].(externalCost := externalCost, pointToPoint := p2p);
    var up := if prt.portEnabled.On? then prt
                 else prt.(portEnabled := On, baInconsistent := Off,
                           brAssuRcvdInfoWhile := 3 * b.tree.ptps[i].portTimes.hello);
    OnPort(b, i, up).(tree := b.tree.(ptps := b.tree.ptps[i := b.tree.ptps[i].(internalCost := internalCost)]))
  }

  function Mchecked(b: BState, i: nat): BState
    requires i < |b.ports| == |b.tree.ptps|
  {
    if RstpVersion(b.cfg) && b.ports[i].portEnabled.On? && b.cfg.enabled then
      var q := b.tree.ptps[i].(proposing := On);
      OnPort(b, i, b.ports[i].(mcheck := On)).(tree := b.tree.(ptps := b.tree.ptps[i := q]))
    else b
  }

  function Removed(b: BState, i: nat): BState {
    if !(i < |b.ports| == |b.tree.ptps|) then b
    else
      b.(ports := b.ports[..i] + b.ports[i + 1..], tree := b.tree.(ptps := b.tree.ptps[..i] + b.tree.ptps[i + 1..]))
  }

  function Added(b: BState, portId: u16, internalCost: u32): BState {
    b.(ports := b.ports + [CreatedPort()],
       tree := b.tree.(ptps := b.tree.ptps + [CreatedEntry(b.tree, portId, internalCost)]))
  }

  /** Changed bridge times reach every port's Hello Time and force role selection. */
  function Retimed(b: BState, maxHops: u8, forwardDelay: u8, maxAge: u8, hello: u8): BState
    requires |b.ports| == |b.tree.ptps|
  {
    var t := b.tree.bridgeTimes.(hops := maxHops, forwardDelay := forwardDelay, maxAge := maxAge, hello := hello);
    b.(cfg := b.cfg.(maxHops := maxHops, forwardDelay := forwardDelay, maxAge := maxAge, hello := hello),
       tree := b.tree.(bridgeTimes := t,
                       ptps := seq(|b.ports|, i requires 0 <= i < |b.ports| =>
                                     b.tree.ptps[i].(selected := Off, reselect := On,
                                                     portTimes := b.tree.ptps[i].portTimes.(hello := hello)))))
  }

  /** The entries ask for role selection. */
  function Reselecting(ptps: seq<Ptp>): (r: seq<Ptp>)
    ensures |r| == |ptps|
  {
    seq(|ptps|, i requires 0 <= i < |ptps| => ptps[i].(selected := Off, reselect := On))
  }

  /** The bridge's own vector follows its identifier. */
  function Identified(tree: Tree, id: BridgeId): Tree {
    tree.(bridgeId := id, bridgePriority := tree.bridgePriority.(rootId := id, rrootId := id, desBridge := id))
  }

  function Prioritised(b: BState, priority: u8): BState
    requires priority <= 15
  {
    var id := b.tree.bridgeId.(priority := PI.SetPriority(priority * 16, b.tree.bridgeId.priority));
    if id == b.tree.bridgeId then b
    else b.(tree := Identified(b.tree, id).(ptps := Reselecting(b.tree.ptps)))
  }

  function PortPrioritised(b: BState, i: nat, priority: u8, internalCost: u32): BState
    requires i < |b.ports| == |b.tree.ptps| && priority <= 15
  {
    var p := b.tree.ptps[i];
    var q := p.(portId := PI.SetPriority(priority * 16, p.portId), internalCost := internalCost);
    var r := if q != p && b.ports[i].portEnabled.On? then q.(selected := Off, reselect := On) else q;
    b.(tree := b.tree.(ptps := b.tree.ptps[i := r]))
  }

  function PortLinked(b: BState, i: nat, externalCost: u32, p2p: Flag): BState
    requires i < |b.ports| == |b.tree.ptps|
  {
    var p := b.tree.ptps[i];
    var q := if externalCost == b.ports[i].externalCost then p else p.(selected := Off, reselect := On);
    var prt := b.ports[i].(externalCost := externalCost, pointToPoint := p2p);
    OnPort(b, i, prt).(tree := b.tree.(ptps := b.tree.ptps[i := q]))
  }

  function ResetPort(prt: Port): Port {
    prt.(infoInternal := Off, rcvdInternal := Off, rcvdTcAck := Off, rcvdTcn := Off, rapidAgeingWhile := 0,
         brAssuRcvdInfoWhile := 0, baInconsistent := Off)
  }

  function ResetEntry(p: Ptp): Ptp {
    p.(brState := BrDisabled, rcvdTc := Off, tcProp := Off, updtInfo := Off, master := Off, disputed := Off,
       rcvdInfo := OtherInfo, mastered := Off, msgPriority := NO_VEC, msgTimes := NO_TIMES)
  }

  function ResetOutputs(b: BState, n: nat): seq<Output>
    requires n <= |b.ports| == |b.tree.ptps|
  {
    if n == 0 then []
    else
      var prt, p := b.ports[n - 1], b.tree.ptps[n - 1];
      ResetOutputs(b, n - 1)
      + (if prt.rapidAgeingWhile != 0 then [SetAgeing(n - 1, b.cfg.ageingTime)] else [])
      + (if p.brState != BrDisabled then [SetState(n - 1, p.mstid, BrDisabled)] else [])
  }

  /** `MSTP_IN_set_bridge_enable`, without the begin actions that follow it. */
  function Switched(b: BState, up: bool): BState
    requires |b.ports| == |b.tree.ptps|
  {
    if b.cfg.enabled == up then b
    else BState(b.cfg.(enabled := up),
                seq(|b.ports|, i requires 0 <= i < |b.ports| => ResetPort(b.ports[i])),
                b.tree.(timeSinceTc := 0, tcCount := 0, topologyChange := false,
                        ptps := seq(|b.ports|, i requires 0 <= i < |b.ports| => ResetEntry(b.tree.ptps[i]))),
                b.out + ResetOutputs(b, |b.ports|))
  }

  /** The first effect of the event, before any machine runs. */
  function AfterPortEvent(p: PortEvent, b: BState): (r: BState)
    ensures r.cfg == b.cfg && (p.AddPort? || |r.ports| == |b.ports|)
    ensures |b.ports| == |b.tree.ptps| ==> |r.ports| == |r.tree.ptps|
  {
    if |b.ports| != |b.tree.ptps| || !Exists(p, b) then b
    else
      match p
      case RxBpdu(i, msg, mstis) => Received(b, i, msg, mstis)
      case PortUp(i, ec, ic, p2p) => Upped(b, i, ec, ic, p2p)
      case PortDown(i) => OnPort(b, i, b.ports[i].(portEnabled := Off))
      case DeletePort(i, _) => OnPort(b, i, b.ports[i].(deleted := On, portEnabled := Off))
      case AddPort(portId, internalCost) => Added(b, portId, internalCost)
      case Mcheck(i) => Mchecked(b, i)
  }

  /** What is out of range is refused. */
  function AfterSetting(s: Setting, b: BState): BState {
    if |b.ports| != |b.tree.ptps| || !InRange(s, b) then b else InRangeSet(s, b)
  }

  function InRangeSet(s: Setting, b: BState): BState
    requires |b.ports| == |b.tree.ptps| && InRange(s, b)
  {
    match s
    case EnableBridge(up) => Switched(b, up)
    case BridgeAddress(mac) =>
      if mac == b.tree.bridgeId.mac then b else b.(tree := Identified(b.tree, b.tree.bridgeId.(mac := mac)))
    case BridgePriority(p) => Prioritised(b, p)
    case BridgeTimes(hops, fd, ma, hello) =>
      if hops == b.cfg.maxHops && fd == b.cfg.forwardDelay && ma == b.cfg.maxAge && hello == b.cfg.hello then b
      else Retimed(b, hops, fd, ma, hello)
    case TxHoldCount(n) =>
      if n == b.cfg.txHoldCount then b
      else b.(cfg := b.cfg.(txHoldCount := n),
              ports := seq(|b.ports|, i requires 0 <= i < |b.ports| => b.ports[i].(txCount := 0)))
    case ForceVersion(v) => b.(cfg := b.cfg.(version := v))
    case ConfigId(id) => b.(cfg := b.cfg.(configId := id))
    case AgeingTime(n) => b.(cfg := b.cfg.(ageingTime := n))
    case PortPriority(i, p, cost) => PortPrioritised(b, i, p, cost)
    case PortLink(i, cost, p2p) => PortLinked(b, i, cost, p2p)
    case PortConfig(i, ae, au, rr, rt, np, dt, fi) =>
      var prt := b.ports[i];
      OnPort(b, i, prt.(adminEdge := ae, autoEdge := au, restrictedRole := rr, restrictedTcn := rt, networkPort := np,
                        baInconsistent := if np.Off? then Off else prt.baInconsistent,
                        dontTxmtBpdu := dt, bpduFilter := fi,
                        operEdge := if ae == prt.adminEdge then prt.operEdge else ae,
                        bdsm := if ae == prt.adminEdge then prt.bdsm else if ae.On? then Edge else NotEdge))
  }

  /** Settings after which all state machines begin anew: whether the bridge is enabled, its address, the protocol
      version, and the MST Configuration Identifier, whose digest the allocation tables also change. */
  predicate Restarts(s: Setting, b: BState) {
    match s
    case EnableBridge(up) => up != b.cfg.enabled
    case BridgeAddress(mac) => mac != b.tree.bridgeId.mac
    case ForceVersion(v) => v != b.cfg.version
    case ConfigId(id) => id != b.cfg.configId
    case _ => false
  }

  /** The event takes a port down on a bridge whose machines run. */
  predicate TakesDown(p: PortEvent, b: BState) {
    (p.PortDown? || p.DeletePort?) && p.i < |b.ports| && b.cfg.enabled && b.ports[p.i].portEnabled.On?
  }

  /** A port that went down is seen by at least one pass before anything else happens. */
  ghost function Seen(p: PortEvent, b: BState, first: BState): (r: BState)
    ensures Inv(first) ==> Inv(r) && |r.ports| == |first.ports| && r.cfg == first.cfg
  {
    if !TakesDown(p, b) then first
    else if p.DeletePort? then Passes(Pass(first), p.passes)
    else Pass(first)
  }

  ghost function NewPortBegun(first: BState): (r: BState)
    ensures Inv(first) ==> Inv(r) && r.cfg == first.cfg
  {
    if first.cfg.enabled && first.ports != [] then PortBegun(first, |first.ports| - 1) else first
  }

  /** After its first effect and the passes that see it, a deleted port is unlinked. A created port begins at once. */
  ghost function Followed(p: PortEvent, b: BState, first: BState): BState {
    if p.AddPort? then NewPortBegun(first)
    else if p.DeletePort? then Removed(Seen(p, b, first), p.i)
    else Seen(p, b, first)
  }

  ghost function PortEventDone(p: PortEvent, b: BState): BState {
    Followed(p, b, AfterPortEvent(p, b))
  }

  lemma NoSuchPort(p: PortEvent, b: BState)
    requires !Exists(p, b)
    ensures PortEventDone(p, b) == b
  {
  }

  lemma CreationFollows(p: PortEvent, b: BState, first: BState)
    requires p.AddPort?
    ensures Followed(p, b, first) == NewPortBegun(first)
  {
  }

  lemma CreationAdds(p: PortEvent, b: BState)
    requires |b.ports| == |b.tree.ptps| && p.AddPort?
    ensures AfterPortEvent(p, b) == Added(b, p.portId, p.internalCost)
  {
  }

  lemma AdditionBegins(p: PortEvent, b: BState)
    requires |b.ports| == |b.tree.ptps| && p.AddPort?
    ensures PortEventDone(p, b) == NewPortBegun(Added(b, p.portId, p.internalCost))
  {
    var first := AfterPortEvent(p, b);
    CreationAdds(p, b);
    CreationFollows(p, b, first);
  }

  lemma NewPortIsLast(first: BState)
    requires first.cfg.enabled && first.ports != []
    ensures NewPortBegun(first) == PortBegun(first, |first.ports| - 1)
  {
  }

  /** All ports begin after the settings that restart the bridge. What the daemon refuses has no effect. */
  ghost function After(e: Event, b: BState): BState {
    match e
    case RunPass => if b.cfg.enabled then Pass(b) else b
    case OneSecond => if b.cfg.enabled then Ticked(b) else b
    case BeginAll => if b.cfg.enabled then Begin(b) else b
    case OnPorts(p) => PortEventDone(p, b)
    case Configure(s) =>
      var r := AfterSetting(s, b);
      if Restarts(s, b) && r.cfg.enabled then Begin(r) else r
  }

  /** States with the same number of ports, equal entries and no larger counters. */
  lemma SameEntriesKeepInv(b: BState, r: BState)
    requires Inv(b) && |r.ports| == |b.ports| && r.tree.ptps == b.tree.ptps && r.tree.mstid == 0
    requires r.tree.bridgeTimes == b.tree.bridgeTimes && r.cfg.migrateTime == b.cfg.migrateTime
    requires forall i :: 0 <= i < |r.ports| ==> r.ports[i].txCount <= r.cfg.txHoldCount
    ensures Inv(r)
  {
    forall i | 0 <= i < |r.ports|
      ensures EntryAt(r, i)
    {
      assert EntryAt(b, i);
    }
  }

  lemma RemovalKeepsInv(b: BState, i: nat)
    requires Inv(b)
    ensures Inv(Removed(b, i))
  {
    var r := Removed(b, i);
    forall j | i < |b.ports| && 0 <= j < |r.ports|
      ensures EntryAt(r, j)
    {
      assert EntryAt(b, if j < i then j else j + 1);
    }
  }

  lemma CreatedEntryOk(tree: Tree, portId: u16, internalCost: u32)
    requires tree.mstid == 0 && tree.bridgeTimes.hello > 0
    ensures EntryOk(CreatedEntry(tree, portId, internalCost))
  {
  }

  lemma AdditionKeepsInv(b: BState, portId: u16, internalCost: u32)
    requires Inv(b)
    ensures Inv(Added(b, portId, internalCost))
  {
    var r := Added(b, portId, internalCost);
    CreatedEntryOk(b.tree, portId, internalCost);
    forall j | 0 <= j < |r.ports|
      ensures EntryAt(r, j)
    {
      if j < |b.ports| { assert EntryAt(b, j); }
    }
  }

  lemma RetimingKeepsInv(b: BState, maxHops: u8, forwardDelay: u8, maxAge: u8, hello: u8)
    requires Inv(b) && hello > 0
    ensures Inv(Retimed(b, maxHops, forwardDelay, maxAge, hello))
  {
    var r := Retimed(b, maxHops, forwardDelay, maxAge, hello);
    forall j | 0 <= j < |r.ports|
      ensures EntryAt(r, j)
    {
      assert EntryAt(b, j);
    }
  }

  lemma PortChangeKeepsInv(b: BState, r: BState, i: nat)
    requires Inv(b) && i < |b.ports| == |r.ports| == |r.tree.ptps|
    requires r == BState(b.cfg, b.ports[i := r.ports[i]], b.tree.(ptps := b.tree.ptps[i := r.tree.ptps[i]]), b.out)
    requires r.ports[i].txCount == b.ports[i].txCount
    requires var p, q := b.tree.ptps[i], r.tree.ptps[i];
             q == p.(internalCost := q.internalCost, proposing := q.proposing)
    ensures Inv(r)
  {
    assert EntryAt(b, i);
    PutKeepsInv(b, i, r.ports[i], r.tree.ptps[i], r.out);
  }

  /** An entry that is told to select its role again, or is reset, remains a good one. */
  lemma ChangedEntryOk(p: Ptp, portId: u16, cost: u32)
    requires EntryOk(p)
    ensures EntryOk(p.(portId := portId, internalCost := cost))
    ensures EntryOk(p.(portId := portId, internalCost := cost, selected := Off, reselect := On))
    ensures EntryOk(ResetEntry(p))
  {
  }

  lemma SwitchingKeepsInv(b: BState, up: bool)
    requires Inv(b)
    ensures Inv(Switched(b, up))
  {
    var r := Switched(b, up);
    forall i | 0 <= i < |r.ports|
      ensures EntryAt(r, i)
    {
      assert EntryAt(b, i);
      ChangedEntryOk(b.tree.ptps[i], 0, 0);
    }
  }

  lemma PrioritisingKeepsInv(b: BState, priority: u8)
    requires Inv(b) && priority <= 15
    ensures Inv(Prioritised(b, priority))
  {
    var r := Prioritised(b, priority);
    forall i | 0 <= i < |r.ports|
      ensures EntryAt(r, i)
    {
      assert EntryAt(b, i);
      var p := b.tree.ptps[i];
      ChangedEntryOk(p, p.portId, p.internalCost);
    }
  }

  lemma PortSettingKeepsInv(b: BState, i: nat, prt: Port, q: Ptp)
    requires Inv(b) && i < |b.ports| && prt.txCount == b.ports[i].txCount
    requires var p := b.tree.ptps[i];
             || q == p.(portId := q.portId, internalCost := q.internalCost)
             || q == p.(portId := q.portId, internalCost := q.internalCost, selected := Off, reselect := On)
    ensures Inv(BState(b.cfg, b.ports[i := prt], b.tree.(ptps := b.tree.ptps[i := q]), b.out))
  {
    assert EntryAt(b, i);
    ChangedEntryOk(b.tree.ptps[i], q.portId, q.internalCost);
    PutKeepsInv(b, i, prt, q, b.out);
  }

  lemma SettingKeepsInv(s: Setting, b: BState)
    requires Inv(b)
    ensures Inv(AfterSetting(s, b))
  {
    if InRange(s, b) { InRangeSetKeepsInv(s, b); }
  }

  lemma InRangeSetKeepsInv(s: Setting, b: BState)
    requires Inv(b) && InRange(s, b)
    ensures Inv(InRangeSet(s, b))
  {
    match s
    case EnableBridge(up) => SwitchingKeepsInv(b, up);
    case BridgePriority(p) => PrioritisingKeepsInv(b, p);
    case BridgeTimes(hops, fd, ma, hello) => RetimingKeepsInv(b, hops, fd, ma, hello);
    case PortPriority(i, p, cost) =>
      var r := PortPrioritised(b, i, p, cost);
      assert r.ports == b.ports[i := b.ports[i]];
      PortSettingKeepsInv(b, i, b.ports[i], r.tree.ptps[i]);
    case PortLink(i, cost, p2p) =>
      var r := PortLinked(b, i, cost, p2p);
      PortSettingKeepsInv(b, i, r.ports[i], r.tree.ptps[i]);
    case BridgeAddress(_) | TxHoldCount(_) | ForceVersion(_) | ConfigId(_) | AgeingTime(_)
      | PortConfig(_, _, _, _, _, _, _, _) =>
      SameEntriesKeepInv(b, InRangeSet(s, b));
  }

  lemma PortEventKeepsInv(p: PortEvent, b: BState)
    requires Inv(b)
    ensures Inv(AfterPortEvent(p, b))
  {
    if Exists(p, b) { ExistingPortEventKeepsInv(p, b); }
  }

  lemma ExistingPortEventKeepsInv(p: PortEvent, b: BState)
    requires Inv(b) && Exists(p, b)
    ensures Inv(AfterPortEvent(p, b))
  {
    match p
    case AddPort(portId, cost) => AdditionKeepsInv(b, portId, cost);
    case PortUp(i, ec, ic, p2p) => PortChangeKeepsInv(b, Upped(b, i, ec, ic, p2p), i);
    case Mcheck(i) => PortChangeKeepsInv(b, Mchecked(b, i), i);
    case RxBpdu(_, _, _) | PortDown(_) | DeletePort(_, _) => SameEntriesKeepInv(b, AfterPortEvent(p, b));
  }

  lemma PortEventDoneKeepsInv(p: PortEvent, b: BState)
    requires Inv(b)
    ensures Inv(PortEventDone(p, b)) && PortEventDone(p, b).cfg == b.cfg
  {
    PortEventKeepsInv(p, b);
    if p.DeletePort? { RemovalKeepsInv(Seen(p, b, AfterPortEvent(p, b)), p.i); }
  }

  /** Every event keeps the invariant of the bridge. */
  lemma EventKeepsInv(e: Event, b: BState)
    requires Inv(b)
    ensures Inv(After(e, b))
  {
    match e
    case RunPass | OneSecond | BeginAll =>
    case OnPorts(p) => PortEventDoneKeepsInv(p, b);
    case Configure(s) => SettingKeepsInv(s, b);
  }

  // ---- Histories ----

  /** A bridge as created: not enabled, no ports, the default times, the fixed Migrate Time. */
  predicate Created(b: BState) {
    && !b.cfg.enabled && b.ports == [] && b.tree.ptps == [] && b.tree.mstid == 0 && !b.tree.topologyChange
    && b.tree.bridgeTimes == Times(20, 15, 20, 0, 2) && b.cfg.migrateTime == 3
  }

  /** The state that a history leads to. */
  ghost function Last(es: seq<Event>, b: BState): BState {
    if es == [] then b else Last(es[1..], After(es[0], b))
  }

  /** All states on the way satisfy the invariant. */
  lemma {:induction false} HistoryKeepsInv(es: seq<Event>, b: BState)
    requires Inv(b)
    ensures Inv(Last(es, b))
    decreases |es|
  {
    if es != [] {
      EventKeepsInv(es[0], b);
      HistoryKeepsInv(es[1..], After(es[0], b));
    }
  }

  /** Whatever happened since the bridge was created, once a pass has run every port learns and forwards
      exactly as its role says, no Hello Time is 0 and no transmission counter exceeds the hold count; and if a dry
      run then reports nothing, another pass would change nothing. */
  lemma EveryRunEndsAligned(es: seq<Event>, b: BState, j: nat)
    requires Created(b) && Last(es, b).cfg.enabled && j < |Last(es, b).ports|
    ensures var r := After(RunPass, Last(es, b));
            && Inv(r) && j < |r.ports|
            && var p := r.tree.ptps[j];
               && Aligned(p) && (p.forward.On? ==> p.learn.On?) && RT.Fits(RT.FamilyOf(p.prtsm), p.role)
               && (p.forwarding.On? ==> p.role == RoleRoot || p.role == RoleDesignated)
               && p.portTimes.hello > 0 && r.ports[j].txCount <= r.cfg.txHoldCount
    ensures var r := After(RunPass, Last(es, b)); !DryPass(r) ==> After(RunPass, r) == r
  {
    var last := Last(es, b);
    HistoryKeepsInv(es, b);
    PassAlignsPorts(last, j);
    assert EntryAt(Pass(last), j);
    if !DryPass(Pass(last)) { QuietPassIsFixpoint(Pass(last)); }
  }
}
