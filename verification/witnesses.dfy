/** Concrete states at which a property one might expect of the daemon fails. The exact conditions are
    `Hearing.HearingDecidesRole`, `Network.StepIsCheaperIffNoWrap`, `TopologyChange.NewTcWhileKeepsFlagIff`,
    `TopologyChange.RestsIff`, `TopologyChange.DryIsWrongIff` and `RoleChains.ChainEndsIff`. */
module Witnesses {
  import opened Types
  import PI = PortInfo
  import PIT = PortInfoTheorems
  import Network
  import TC = TopologyChange
  import RT = RoleTransitions
  import RoleChains
  import Hearing
  import Vectors
  import Roles
  import Runs

  // ---- Two bridges on one link ----

  function Id(mac: u48): BridgeId {
    BridgeId(0x8000, mac)
  }

  /** The vector that bridge `mac` sends while it takes itself for the Root. */
  function OwnVec(mac: u48): Vec {
    Vec(Id(mac), 0, Id(mac), 0x8001, Id(mac), 0)
  }

  /** The Configuration BPDU with that vector and a Max Age of 20 seconds. */
  function OwnMessage(mac: u48, age: u8): Bpdu {
    Runs.NO_BPDU.(rootId := Id(mac), rrootId := Id(mac), portId := 0x8001, messageAge := WireTime(age, 0),
                  maxAge := WireTime(20, 0), helloTime := WireTime(2, 0), forwardDelay := WireTime(15, 0))
  }

  /** Bridge `mac` with one port, Designated and settled, that has the message unread. */
  function LoneTree(mac: u48): Tree {
    var times := Times(20, 15, 20, 0, 2);
    var vec := Vec(Id(mac), 0, Id(mac), 0, Id(mac), 0);
    var tree := Tree(0, Id(mac), 0, vec, vec, times, times, 0, 0, false, RoleSelection, []);
    var p := Runs.CreatedEntry(tree, 0x8001, 20000);
    tree.(ptps := [p.(pism := PiCurrent, infoIs := IoMine, rcvdMsg := On, selected := On, role := RoleDesignated,
                      selectedRole := RoleDesignated, portPriority := OwnVec(mac), designatedPriority := OwnVec(mac))])
  }

  function LonePort(msg: Bpdu): Port {
    Runs.CreatedPort().(portEnabled := On, bpdu := msg)
  }

  function LoneColumn(mac: u48, msg: Bpdu): PI.Column {
    PI.Column(LonePort(msg), LoneTree(mac).ptps)
  }

  lemma LoneIsSettled(mac: u48, msg: Bpdu)
    requires msg.version == ProtoSTP && msg.bpduType == TypeConfig
    ensures Hearing.SettledDesignated(LoneTree(mac), [LonePort(msg)], 0, LoneColumn(mac, msg))
    ensures Hearing.HearsDesignated(LoneColumn(mac, msg))
  {
    var tree, ports := LoneTree(mac), [LonePort(msg)];
    assert Roles.SelectRoot(tree, ports, 0).vec == tree.bridgePriority;
    assert Roles.SelectRoot(tree, ports, 1) == Roles.SelectRoot(tree, ports, 0);
  }

  /** A strictly better vector in a message as old as its Max Age: the run ages it at once, and both ends of the link
      stay Designated. */
  lemma BothStayDesignated(cfg: Config)
    ensures var better, worse := OwnMessage(1, 20), OwnMessage(2, 0);
            var c1, c2 := LoneColumn(2, better), LoneColumn(1, worse);
            && Vectors.StrictlyBetter(PI.CistVec(better), c1.ptps[0].portPriority, true)
            && PI.Rest(c1, 0, cfg).ptps[0].infoIs == IoAged
            && Hearing.RoleAfter(LoneTree(2), [LonePort(better)], 0, PI.Rest(c1, 0, cfg)) == RoleDesignated
            && Hearing.RoleAfter(LoneTree(1), [LonePort(worse)], 0, PI.Rest(c2, 0, cfg)) == RoleDesignated
  {
    var better, worse := OwnMessage(1, 20), OwnMessage(2, 0);
    var c1, c2 := LoneColumn(2, better), LoneColumn(1, worse);
    LoneIsSettled(2, better);
    LoneIsSettled(1, worse);
    Hearing.RunOnDesignated(c1, cfg);
    Hearing.HearingDecidesRole(LoneTree(2), [LonePort(better)], 0, c1, cfg);
    Hearing.HearingDecidesRole(LoneTree(1), [LonePort(worse)], 0, c2, cfg);
  }

  /** The same message one second younger makes exactly one end stay Designated. */
  lemma OneStaysDesignated(cfg: Config)
    ensures var better, worse := OwnMessage(1, 19), OwnMessage(2, 0);
            var c1, c2 := LoneColumn(2, better), LoneColumn(1, worse);
            && Hearing.RoleAfter(LoneTree(2), [LonePort(better)], 0, PI.Rest(c1, 0, cfg)) != RoleDesignated
            && Hearing.RoleAfter(LoneTree(1), [LonePort(worse)], 0, PI.Rest(c2, 0, cfg)) == RoleDesignated
  {
    var better, worse := OwnMessage(1, 19), OwnMessage(2, 0);
    LoneIsSettled(2, better);
    LoneIsSettled(1, worse);
    Hearing.HearingDecidesRole(LoneTree(2), [LonePort(better)], 0, LoneColumn(2, better), cfg);
    Hearing.HearingDecidesRole(LoneTree(1), [LonePort(worse)], 0, LoneColumn(1, worse), cfg);
  }

  // ---- Two bridges whose costs wrap ----

  /** Bridge `mac` with one external link of half the range of costs; it has heard bridge `other`, which names bridge 1
      as the Root, at cost `cost`. */
  function FarNode(mac: u48, other: u48, cost: u32): Network.Node {
    var tree := LoneTree(mac);
    var heard := Vec(Id(other), 0, Id(other), 0x8001, Id(1), cost);
    var p := tree.ptps[0].(infoIs := IoReceived, rcvdMsg := Off, portPriority := heard);
    Network.Node(tree.(ptps := [p]), [Runs.CreatedPort().(portEnabled := On, sendRSTP := On, externalCost := HALF)])
  }

  const HALF: u32 := 0x8000_0000

  lemma FarChoice(mac: u48, other: u48, cost: u32)
    requires mac > 1 && other > 1 && mac != other
    ensures var n := FarNode(mac, other, cost);
            && Network.NodeOk(Id(mac), n) && Network.Upstream(n) == Some(Id(other))
               && Network.Choice(n).index == Some(0)
            && Network.Choice(n).vec == Vec(Id(mac), 0, Id(other), 0x8001, Id(1), (cost + HALF) % 0x1_0000_0000)
  {
    var n := FarNode(mac, other, cost);
    assert Roles.SelectRoot(n.tree, n.ports, 0) == Roles.RootChoice(n.tree.bridgePriority, 0, None);
    assert Roles.RootOf(n.tree, n.ports) == Roles.SelectRoot(n.tree, n.ports, 1);
  }

  /** Two bridges of different regions, each with the path cost 2147483648, whose information is current: each has the
      other behind its Root Port, and where the sum wraps the step towards the Root is not cheaper. */
  lemma RootPortsCycle()
    ensures var a, b := FarNode(2, 3, HALF), FarNode(3, 2, 0);
            && Network.NodeOk(Id(2), a) && Network.NodeOk(Id(3), b)
            && Network.HeardOn(a, 0, b, 0) && Network.HeardOn(b, 0, a, 0)
            && Network.Upstream(a) == Some(Id(3)) && Network.Upstream(b) == Some(Id(2))
            && Network.CostSum(a, 0) == 0x1_0000_0000 && !Network.Cheaper(Network.Choice(b).vec, Network.Choice(a).vec)
  {
    FarChoice(2, 3, HALF);
    FarChoice(3, 2, 0);
  }

  // ---- Times of the region that are 0 ----

  const REGION := Config(true, [7], ProtoMSTP, 20, 15, 20, 2, 6, 3, 300)

  /** An MST BPDU of the region, from bridge 1, with 20 hops left and a Max Age and a Forward Delay of 0. */
  function TimelessMessage(): Bpdu {
    Runs.NO_BPDU.(version := ProtoMSTP, bpduType := TypeRst, flags := NO_FLAGS.(role := EncDesignated),
                  rootId := Id(1), rrootId := Id(1), bridgeId := Id(1), portId := 0x8001, configId := [7], hops := 20)
  }

  function TimelessColumn(): PI.Column {
    var c := LoneColumn(2, TimelessMessage());
    c.(prt := c.prt.(rcvdInternal := On))
  }

  /** Bridge 2 after its information machine has run on that message, with a second port that sends STP BPDUs. */
  function TimelessTree(): Tree {
    var tree := LoneTree(2);
    tree.(ptps := [PI.Rest(TimelessColumn(), 0, REGION).ptps[0], tree.ptps[0]])
  }

  function TimelessPorts(): seq<Port> {
    [PI.Rest(TimelessColumn(), 0, REGION).prt, Runs.CreatedPort().(portEnabled := On)]
  }

  lemma TimelessRun()
    ensures var c := PI.Rest(TimelessColumn(), 0, REGION);
            && c.ptps[0].infoIs == IoReceived && c.ptps[0].portPriority == Vec(Id(1), 0, Id(1), 0x8001, Id(1), 0)
            && c.ptps[0].portTimes == Times(20, 0, 0, 0, 2) && c.ptps[0].tcWhile == 0 && c.ptps[0].mstid == 0
            && c.ptps[0].internalCost == 20000 && c.prt.rcvdInternal.On? && c.prt.restrictedRole.Off?
  {
    Hearing.RunOnDesignated(TimelessColumn(), REGION);
    PIT.RestIsFramed(TimelessColumn(), 0, REGION);
  }

  lemma TimelessRoot()
    ensures Roles.RootOf(TimelessTree(), TimelessPorts()).index == Some(0)
  {
    TimelessRun();
    var tree, ports := TimelessTree(), TimelessPorts();
    assert Roles.SelectRoot(tree, ports, 0) == Roles.RootChoice(tree.bridgePriority, 0, None);
    assert Roles.SelectRoot(tree, ports, 1).index == Some(0);
    assert Roles.SelectRoot(tree, ports, 2) == Roles.SelectRoot(tree, ports, 1);
  }

  /** Role selection makes the sender the Root, with root times of 0. */
  lemma TimelessSelected() returns (tree: Tree)
    ensures tree == Roles.UpdatedTree(TimelessTree(), TimelessPorts(), TimelessTree().ptps) && |tree.ptps| == 2
    ensures tree.rootTimes.maxAge == 0 && tree.rootTimes.forwardDelay == 0 && !tree.topologyChange
    ensures tree.ptps[0].tcWhile == 0 && tree.ptps[1].tcWhile == 0
  {
    TimelessRun();
    TimelessRoot();
    var t, ports := TimelessTree(), TimelessPorts();
    tree := Roles.UpdatedTree(t, ports, t.ptps);
    var c := Roles.RootOf(t, ports);
    var times := Roles.NextRootTimes(t, ports, c.index);
    TimerAssigned(t.ptps[0], ports[0], t.ptps[0], c.index == Some(0), c.vec, times, t.bridgeId);
    TimerAssigned(t.ptps[1], ports[1], t.ptps[1], c.index == Some(1), c.vec, times, t.bridgeId);
  }

  lemma TimerAssigned(p: Ptp, prt: Port, cistPtp: Ptp, isRoot: bool, root: Vec, times: Times, bid: BridgeId)
    ensures Roles.Assigned(p, prt, cistPtp, isRoot, root, times, bid, true).tcWhile == p.tcWhile
  {
  }

  /** A topology change noted on the second port then raises the flag, and no timer runs. */
  lemma FlagWithoutTimer(env: TC.Env)
    ensures var tree := Roles.UpdatedTree(TimelessTree(), TimelessPorts(), TimelessTree().ptps);
            var r := TC.NewTcWhile(TC.Ctx(tree, Runs.CreatedPort().(portEnabled := On), []), 1, env).tree;
            TC.FlagOk(tree) && r.topologyChange && !TC.SomeTcWhile(r.ptps)
  {
    var tree := TimelessSelected();
    RaisedWithoutTimer(TC.Ctx(tree, Runs.CreatedPort().(portEnabled := On), []), env);
  }

  lemma RaisedWithoutTimer(c: TC.Ctx, env: TC.Env)
    requires |c.tree.ptps| == 2 && c.tree.ptps[0].tcWhile == 0 && c.tree.ptps[1].tcWhile == 0 && !c.tree.topologyChange
    requires c.tree.rootTimes.maxAge == 0 && c.tree.rootTimes.forwardDelay == 0 && c.prt.sendRSTP.Off?
    ensures var r := TC.NewTcWhile(c, 1, env).tree; TC.FlagOk(c.tree) && r.topologyChange && !TC.SomeTcWhile(r.ptps)
  {
  }

  // ---- An MSTI ----

  /** MSTI 1 with one port in the given role and Topology Change state. */
  function MstiTree(role: Role, state: TcsmState): Tree {
    var tree := LoneTree(1).(mstid := 1, ptps := []);
    var p := Runs.CreatedEntry(tree, 0x8001, 20000);
    tree.(ptps := [p.(role := role, selectedRole := role, selected := On, tcsm := state)])
  }

  /** The CIST entry of the same port is INACTIVE and does not learn: its machine is at rest and leaves the TCN. */
  lemma CistLeavesTcn()
    ensures var prt, p := Runs.CreatedPort().(rcvdTcn := On), LoneTree(1).ptps[0];
            p.mstid == 0 && p.tcsm == TcInactive && TC.Target(p, prt).None? && !TC.Dry(p, prt)
  {
  }

  /** A Designated Port of an MSTI in ACTIVE whose port has received a TCN never comes to rest. */
  lemma ActiveWithTcnLoops(env: TC.Env, n: nat)
    ensures var c := TC.Ctx(MstiTree(RoleDesignated, TcActive), Runs.CreatedPort().(rcvdTcn := On), []);
            !TC.AtRestAfter(c, 0, env, 0, n) && TC.Target(LoneTree(1).ptps[0], c.prt).None?
  {
    CistLeavesTcn();
    var c := TC.Ctx(MstiTree(RoleDesignated, TcActive), Runs.CreatedPort().(rcvdTcn := On), []);
    TC.LoopingNeverRests(c, 0, env, 0, n);
  }

  /** An Alternate Port of an MSTI in LEARNING whose port has received a TCN: the dry run reports no change, and the
      actual run never comes to rest. */
  lemma QuietDryRunLoops(env: TC.Env, n: nat)
    ensures var c := TC.Ctx(MstiTree(RoleAlternate, TcLearning), Runs.CreatedPort().(rcvdTcn := On), []);
            && !TC.Dry(c.tree.ptps[0], c.prt) && !TC.AtRestAfter(c, 0, env, 0, n)
            && TC.Target(LoneTree(1).ptps[0], c.prt).None?
  {
    CistLeavesTcn();
    var c := TC.Ctx(MstiTree(RoleAlternate, TcLearning), Runs.CreatedPort().(rcvdTcn := On), []);
    TC.LoopingNeverRests(c, 0, env, 0, n);
  }

  /** A Master Port in sync that waits for the re-root timer, alone in its tree, opens and closes for ever. */
  lemma MasterPortSpins(env: RT.Env, n: nat)
    ensures var p := MstiTree(RoleMaster, TcInactive).ptps[0].(prtsm := MasterPort, synced := On, reRoot := On,
                                                               rrWhile := 15);
            !RoleChains.EndsAfter(RT.Row(Runs.CreatedPort(), [p]), 0, env, n)
  {
    var p := MstiTree(RoleMaster, TcInactive).ptps[0].(prtsm := MasterPort, synced := On, reRoot := On, rrWhile := 15);
    var row := RT.Row(Runs.CreatedPort(), [p]);
    assert row.ptps[0 := p.(role := RoleMaster)] == [p];
    RoleChains.SpinningNeverEnds(row, 0, env, n);
  }
}
