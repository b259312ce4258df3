/** What every event keeps of the ports of an enabled bridge: the edge variables agree, ports without information are
    steady, and received information has times. */
module SteadyRuns {
  import opened Types
  import opened Driver
  import opened PassStages
  import opened Settling
  import opened DownPorts
  import opened LiveTimes
  import opened Runs
  import RT = RoleTransitions
  import PI = PortInfo
  import PIT = PortInfoTheorems
  import PM = PortMachines
  import TC = TopologyChange

  // ---- Good ports ----

  predicate GoodPort(prt: Port, p: Ptp, cfg: Config) {
    EdgeFits(prt) && Steady(prt, p) && Timed(prt, p, cfg)
  }

  ghost function GoodIn(cfg: Config): PortProp {
    (prt: Port, p: Ptp) => GoodPort(prt, p, cfg)
  }

  ghost predicate GoodAt(b: BState, i: nat) {
    HoldsAt(b, i, GoodIn(b.cfg))
  }

  ghost predicate AllGood(b: BState) {
    TreeLive(b.tree) && forall i: nat :: i < |b.ports| ==> GoodAt(b, i)
  }

  /** The invariant of the histories: nothing is said of the ports of a bridge that is not enabled. */
  ghost predicate Good(b: BState) {
    Live(b.tree.bridgeTimes) && (b.cfg.enabled ==> AllGood(b))
  }

  // ---- A pass ----

  /** Good, except that the port may just have gone down; then no update is pending. */
  predicate ReadyPort(prt: Port, p: Ptp, cfg: Config) {
    EdgeFits(prt) && Ready(prt, p) && Timed(prt, p, cfg)
  }

  ghost function ReadyIn(cfg: Config): PortProp {
    (prt: Port, p: Ptp) => ReadyPort(prt, p, cfg)
  }

  ghost predicate AllReady(b: BState) {
    TreeLive(b.tree) && forall i: nat :: i < |b.ports| ==> HoldsAt(b, i, ReadyIn(b.cfg))
  }

  lemma ReadyPasses(b: BState, i: nat)
    requires Inv(b) && HoldsAt(b, i, ReadyIn(b.cfg)) && HoldsAt(Pass(b), i, TimedIn(b.cfg))
    ensures GoodAt(Pass(b), i)
  {
    PassSteadies(b, i);
    PassKeepsEdge(b, i);
  }

  lemma PassMakesGood(b: BState)
    requires Inv(b) && AllReady(b)
    ensures AllGood(Pass(b)) && Live(PhaseStart(b, 8).tree.rootTimes)
  {
    forall i: nat | i < |b.ports|
      ensures HoldsAt(b, i, TimedIn(b.cfg))
    {
      assert HoldsAt(b, i, ReadyIn(b.cfg));
    }
    PassKeepsLive(b);
    forall i: nat | i < |b.ports|
      ensures GoodAt(Pass(b), i)
    {
      assert HoldsAt(b, i, ReadyIn(b.cfg)) && HoldsAt(Pass(b), i, TimedIn(b.cfg));
      ReadyPasses(b, i);
    }
  }

  lemma GoodIsReady(b: BState)
    requires |b.ports| == |b.tree.ptps| && AllGood(b)
    ensures AllReady(b)
  {
    forall i: nat | i < |b.ports|
      ensures HoldsAt(b, i, ReadyIn(b.cfg))
    {
      assert GoodAt(b, i);
    }
  }

  lemma PassesKeepGood(b: BState, n: nat)
    requires Inv(b) && AllGood(b)
    ensures AllGood(Passes(b, n))
  {
    forall c: BState | Inv(c) && AllGood(c)
      ensures AllGood(Pass(c))
    {
      GoodIsReady(c);
      PassMakesGood(c);
    }
    KeptByPasses((c: BState) => AllGood(c), b, n);
  }

  // ---- A second ----

  lemma TickedPortGood(prt: Port, p: Ptp, prt': Port, q: Ptp, cfg: Config)
    requires GoodPort(prt, p, cfg) && prt' == TickedPort(prt)
    requires q == TickedEntry(p).(tcWhile := q.tcWhile) && (p.tcWhile == 0 ==> q.tcWhile == 0)
    ensures GoodPort(prt', q, cfg)
  {
  }

  lemma TickAt(b: BState, i: nat)
    requires Inv(b) && i < |b.ports|
    ensures var r := TickPort(b, i); TreeChange(b.tree, r.tree)
    ensures var r, p := TickPort(b, i), b.tree.ptps[i];
            var q := r.tree.ptps[i];
            && r.ports[i] == TickedPort(b.ports[i]) && q == TickedEntry(p).(tcWhile := q.tcWhile)
            && (p.tcWhile == 0 ==> q.tcWhile == 0)
    ensures forall j :: 0 <= j < |b.ports| && j != i ==> ElsewhereAt(b, TickPort(b, i), j)
  {
    var p := b.tree.ptps[i];
    var t := b.tree.(ptps := b.tree.ptps[i := TickedEntry(p)]);
    var u := TC.TickTimer(t, i);
    assert u.ptps == t.ptps[i := TickedEntry(p).(tcWhile := u.ptps[i].tcWhile)];
  }

  lemma TicksSpareAndLead(cfg: Config)
    ensures Spares(Tick, GoodIn(cfg)) && LeadsBy(Tick, cfg, GoodIn(cfg), GoodIn(cfg)) && TreeKept(Tick)
  {
    forall b, j: nat, i: nat | Inv(b) && j < |b.ports| && i != j && HoldsAt(b, i, GoodIn(cfg))
      ensures HoldsAt(Tick(b, j), i, GoodIn(cfg))
    {
      TickAt(b, j);
      assert ElsewhereAt(b, TickPort(b, j), i);
    }
    forall b, i: nat | Inv(b) && b.cfg == cfg && HoldsAt(b, i, GoodIn(cfg))
      ensures HoldsAt(Tick(b, i), i, GoodIn(cfg))
    {
      TickAt(b, i);
      TickedPortGood(b.ports[i], b.tree.ptps[i], Tick(b, i).ports[i], Tick(b, i).tree.ptps[i], cfg);
    }
    forall b, i: nat | Inv(b) && i < |b.ports|
      ensures TreeChange(b.tree, Tick(b, i).tree)
    {
      TickAt(b, i);
    }
  }

  lemma TicksKeepGood(b: BState)
    requires Inv(b) && AllGood(b)
    ensures AllGood(InTurn(Tick, b, |b.ports|))
  {
    TickIsHarmless();
    TicksSpareAndLead(b.cfg);
    TreeKeptByAll(Tick, b, |b.ports|);
    InTurnKeepsInv(Tick, b, |b.ports|);
    forall i: nat | i < |b.ports|
      ensures GoodAt(InTurn(Tick, b, |b.ports|), i)
    {
      assert GoodAt(b, i);
      AllLead(Tick, b, |b.ports|, i, GoodIn(b.cfg), GoodIn(b.cfg));
    }
  }

  lemma SecondKeepsGood(b: BState)
    requires Inv(b) && AllGood(b)
    ensures AllGood(Ticked(b))
  {
    var b1 := b.(tree := if b.tree.topologyChange then b.tree else b.tree.(timeSinceTc := b.tree.timeSinceTc + 1));
    SameEntriesKeepInv(b, b1);
    forall i: nat | i < |b1.ports|
      ensures GoodAt(b1, i)
    {
      assert GoodAt(b, i);
    }
    TicksKeepGood(b1);
  }

  // ---- Begin ----

  /** No update is pending on a port that is down. */
  ghost predicate NoneStuck(b: BState) {
    |b.ports| == |b.tree.ptps|
    && forall i :: 0 <= i < |b.ports| && b.ports[i].portEnabled.Off? ==> b.tree.ptps[i].updtInfo.Off?
  }

  /** A port begun, except for its Topology Change machine. */
  predicate BegunSo(prt: Port, p: Ptp) {
    && EdgeFits(prt) && RoleDue(p) && p.infoIs == IoDisabled && Gone(p) && p.pism == PiDisabled
    && prt.rcvdBpdu.Off? && p.rcvdMsg.Off? && (prt.portEnabled.Off? ==> p.updtInfo.Off?)
  }

  lemma BegunPortIsSo(prt: Port, p: Ptp, cfg: Config)
    requires prt.portEnabled.Off? ==> p.updtInfo.Off?
    ensures BegunSo(BegunPort(prt, cfg), BegunEntry(p, BegunPort(prt, cfg), cfg))
  {
  }

  lemma TcBegunAtOwn(b: BState, i: nat)
    requires Inv(b) && i < |b.ports|
    ensures var r := TcBegunAt(b, i);
            && TreeChange(b.tree, r.tree) && TC.PortFrame(b.ports[i], r.ports[i])
            && TC.OwnFrame(b.tree.ptps[i], r.tree.ptps[i])
            && r.tree.ptps[i].tcsm == TcInactive && r.tree.ptps[i].tcWhile == 0
    ensures forall j :: 0 <= j < |b.ports| && j != i ==> ElsewhereAt(b, TcBegunAt(b, i), j)
  {
    assert EntryAt(b, i);
    var c, env := TC.Ctx(b.tree, b.ports[i], b.out), TC.EnvOf(b.cfg, b.tree.ptps[i]);
    TC.EnterControls(c, i, TcInactive, env, i);
    InactiveStops(c, i, env, i);
    var r := TcBegunAt(b, i);
    forall j | 0 <= j < |b.ports| && j != i
      ensures ElsewhereAt(b, r, j)
    {
      assert r.tree.ptps[j] == c.tree.ptps[j].(tcProp := r.tree.ptps[j].tcProp);
    }
  }

  lemma StoppedIsGood(prt: Port, p: Ptp, prt': Port, q: Ptp, cfg: Config)
    requires BegunSo(prt, p) && TC.PortFrame(prt, prt') && TC.OwnFrame(p, q) && q.tcWhile == 0
    ensures GoodPort(prt', q, cfg)
  {
  }

  lemma TcBeginSpares(p: PortProp)
    requires Private(p)
    ensures Spares(TcBegin, p)
  {
    forall b, j: nat, i: nat | Inv(b) && j < |b.ports| && i != j && HoldsAt(b, i, p)
      ensures HoldsAt(TcBegin(b, j), i, p)
    {
      TcBegunAtOwn(b, j);
      assert ElsewhereAt(b, TcBegunAt(b, j), i);
    }
  }

  lemma TcBeginKeepsTree()
    ensures TreeKept(TcBegin)
  {
    forall b, i: nat | Inv(b) && i < |b.ports|
      ensures TreeChange(b.tree, TcBegin(b, i).tree)
    {
      TcBegunAtOwn(b, i);
    }
  }

  lemma TcBeginLeads(cfg: Config)
    ensures LeadsBy(TcBegin, cfg, BegunSo, GoodIn(cfg))
  {
    forall b, i: nat | Inv(b) && b.cfg == cfg && HoldsAt(b, i, BegunSo)
      ensures HoldsAt(TcBegin(b, i), i, GoodIn(cfg))
    {
      TcBegunAtOwn(b, i);
      StoppedIsGood(b.ports[i], b.tree.ptps[i], TcBegunAt(b, i).ports[i], TcBegunAt(b, i).tree.ptps[i], cfg);
    }
  }

  lemma GoodIsPrivate(cfg: Config)
    ensures Private(GoodIn(cfg)) && Private(BegunSo)
  {
  }

  lemma TcBeginMakesGood(b: BState)
    requires Inv(b) && TreeLive(b.tree) && forall i: nat :: i < |b.ports| ==> HoldsAt(b, i, BegunSo)
    ensures AllGood(InTurn(TcBegin, b, |b.ports|))
  {
    TcBeginIsHarmless();
    GoodIsPrivate(b.cfg);
    TcBeginSpares(BegunSo);
    TcBeginSpares(GoodIn(b.cfg));
    TcBeginLeads(b.cfg);
    TcBeginKeepsTree();
    TreeKeptByAll(TcBegin, b, |b.ports|);
    InTurnKeepsInv(TcBegin, b, |b.ports|);
    forall i: nat | i < |b.ports|
      ensures GoodAt(InTurn(TcBegin, b, |b.ports|), i)
    {
      AllLead(TcBegin, b, |b.ports|, i, BegunSo, GoodIn(b.cfg));
    }
  }

  lemma BeginMakesGood(b: BState)
    requires Inv(b) && Live(b.tree.bridgeTimes) && NoneStuck(b)
    ensures AllGood(Begin(b))
  {
    var c := BegunAll(b);
    BegunAllKeepsInv(b);
    forall i: nat | i < |c.ports|
      ensures HoldsAt(c, i, BegunSo)
    {
      BegunPortIsSo(b.ports[i], b.tree.ptps[i], b.cfg);
    }
    TcBeginMakesGood(c);
  }

  lemma GoodIsUnstuck(b: BState)
    requires Inv(b) && AllGood(b)
    ensures NoneStuck(b)
  {
    forall i | 0 <= i < |b.ports| && b.ports[i].portEnabled.Off?
      ensures b.tree.ptps[i].updtInfo.Off?
    {
      assert GoodAt(b, i);
    }
  }

  // ---- A new port ----

  /** Role selection leaves good ports good. */
  lemma SelectionKeepsGood(b: BState, i: nat)
    requires Inv(b) && GoodAt(b, i)
    ensures GoodAt(SelectRoles(b), i)
  {
    if SelectionEnabled(b) {
      SelectedEntry(b, i);
      ClausesFAndH(b, i);
      SelectedStaysGood(b.ports[i], b.tree.ptps[i], Selected(b).tree.ptps[i], b.cfg);
    }
  }

  lemma SelectedStaysGood(prt: Port, p: Ptp, q: Ptp, cfg: Config)
    requires GoodPort(prt, p, cfg)
    requires q == p.(reselect := Off, selected := On, selectedRole := q.selectedRole, updtInfo := q.updtInfo,
                     designatedPriority := q.designatedPriority, designatedTimes := q.designatedTimes)
    requires p.infoIs == IoDisabled ==> q.selectedRole == RoleDisabled && q.updtInfo == p.updtInfo
    requires p.infoIs == IoAged ==> q.updtInfo.On?
    ensures GoodPort(prt, q, cfg)
  {
  }

  lemma InfoBegunIsSo(prt: Port, p: Ptp, cfg: Config)
    requires Gone(p) && p.updtInfo.Off?
    ensures BegunSo(BegunPort(prt, cfg), InfoBegun(p, BegunPort(prt, cfg), cfg))
  {
  }

  lemma NewPortSelected(b: BState, i: nat)
    requires Inv(b) && HoldsAt(b, i, BegunSo)
    ensures HoldsAt(SelectRoles(b), i, BegunSo)
  {
    if SelectionEnabled(b) {
      SelectedEntry(b, i);
      ClausesFAndH(b, i);
      SelectedStaysSo(b.ports[i], b.tree.ptps[i], Selected(b).tree.ptps[i]);
    }
  }

  lemma SelectedStaysSo(prt: Port, p: Ptp, q: Ptp)
    requires BegunSo(prt, p) && q.selectedRole == RoleDisabled
    requires q == p.(reselect := Off, selected := On, selectedRole := q.selectedRole, updtInfo := p.updtInfo,
                     designatedPriority := q.designatedPriority, designatedTimes := q.designatedTimes)
    ensures BegunSo(prt, q)
  {
  }

  lemma RolesBegunIsSo(p: Ptp, prt: Port, cfg: Config)
    requires BegunSo(prt, p)
    ensures BegunSo(prt, RolesBegun(p, prt, cfg))
  {
  }

  /** The stages of the begin of a single port: its information machine, role selection, its roles. */
  lemma FirstStage(b: BState, i: nat, j: nat) returns (b1: BState)
    requires Inv(b) && i < |b.ports| && Gone(b.tree.ptps[i]) && b.tree.ptps[i].updtInfo.Off?
             && (j != i ==> GoodAt(b, j))
    ensures b1 == InfoBegunAt(b, i) && Inv(b1) && b1.cfg == b.cfg
    ensures if j == i then HoldsAt(b1, i, BegunSo) else GoodAt(b1, j)
  {
    b1 := InfoBegunAt(b, i);
    InfoBegunAtKeepsInv(b, i);
    InfoBegunIsSo(b.ports[i], b.tree.ptps[i], b.cfg);
  }

  lemma SecondStage(b1: BState, i: nat, j: nat) returns (b2: BState)
    requires Inv(b1) && i < |b1.ports| && if j == i then HoldsAt(b1, i, BegunSo) else GoodAt(b1, j)
    ensures b2 == SelectRoles(b1) && Inv(b2) && b2.cfg == b1.cfg && |b2.ports| == |b1.ports|
    ensures if j == i then HoldsAt(b2, i, BegunSo) else GoodAt(b2, j)
  {
    b2 := SelectRoles(b1);
    SelectionKeepsInv(b1);
    if j == i { NewPortSelected(b1, i); } else { SelectionKeepsGood(b1, j); }
  }

  lemma ThirdStage(b2: BState, i: nat, j: nat) returns (b3: BState)
    requires Inv(b2) && i < |b2.ports| && if j == i then HoldsAt(b2, i, BegunSo) else GoodAt(b2, j)
    ensures b3 == RolesBegunAt(b2, i) && Inv(b3) && b3.cfg == b2.cfg && |b3.ports| == |b2.ports|
    ensures if j == i then HoldsAt(b3, i, BegunSo) else GoodAt(b3, j)
  {
    b3 := RolesBegunAt(b2, i);
    RolesBegunAtKeepsInv(b2, i);
    if j == i { RolesBegunIsSo(b2.tree.ptps[i], b2.ports[i], b2.cfg); }
  }

  lemma FourthStage(b3: BState, i: nat, j: nat) returns (b4: BState)
    requires Inv(b3) && i < |b3.ports| && if j == i then HoldsAt(b3, i, BegunSo) else GoodAt(b3, j)
    ensures b4 == TcBegunAt(b3, i) && GoodAt(b4, j)
  {
    b4 := TcBegunAt(b3, i);
    TcBegunAtOwn(b3, i);
    if j == i {
      StoppedIsGood(b3.ports[i], b3.tree.ptps[i], b4.ports[i], b4.tree.ptps[i], b3.cfg);
    } else {
      GoodIsPrivate(b3.cfg);
      assert ElsewhereAt(b3, b4, j);
    }
  }

  /** The begin of a new port among good ones leaves all ports good. */
  lemma NewAmongGood(b: BState, i: nat, j: nat)
    requires Inv(b) && i < |b.ports| && Gone(b.tree.ptps[i]) && b.tree.ptps[i].updtInfo.Off?
             && (j != i ==> GoodAt(b, j))
    ensures GoodAt(PortBegun(b, i), j)
  {
    var b1 := FirstStage(b, i, j);
    var b2 := SecondStage(b1, i, j);
    var b3 := ThirdStage(b2, i, j);
    var b4 := FourthStage(b3, i, j);
  }

  lemma NewPortKeepsTreeLive(b: BState, i: nat)
    requires Inv(b) && i < |b.ports| && TreeLive(b.tree) && Gone(b.tree.ptps[i]) && b.tree.ptps[i].updtInfo.Off?
    requires forall j: nat :: j < |b.ports| && j != i ==> GoodAt(b, j)
    ensures TreeLive(PortBegun(b, i).tree)
  {
    var b1 := FirstStage(b, i, i);
    forall j: nat | j < |b1.ports|
      ensures HoldsAt(b1, j, TimedIn(b1.cfg))
    {
      if j != i { assert GoodAt(b, j); }
    }
    SelectionLive(b1);
    var b2 := SecondStage(b1, i, i);
    var b3 := ThirdStage(b2, i, i);
    TcBegunAtOwn(b3, i);
  }

  lemma AddedAmongGood(b: BState, portId: u16, cost: u32) returns (r: BState)
    requires Inv(b) && AllGood(b)
    ensures r == Added(b, portId, cost) && Inv(r) && |r.ports| == |b.ports| + 1 && TreeLive(r.tree)
    ensures Gone(r.tree.ptps[|b.ports|]) && r.tree.ptps[|b.ports|].updtInfo.Off?
    ensures forall j: nat :: j < |b.ports| ==> GoodAt(r, j)
  {
    r := Added(b, portId, cost);
    AdditionKeepsInv(b, portId, cost);
    forall j: nat | j < |b.ports|
      ensures GoodAt(r, j)
    {
      assert GoodAt(b, j);
    }
  }

  lemma NewPortMakesGood(b: BState, i: nat) returns (r: BState)
    requires Inv(b) && i < |b.ports| && TreeLive(b.tree) && Gone(b.tree.ptps[i]) && b.tree.ptps[i].updtInfo.Off?
    requires forall j: nat :: j < |b.ports| && j != i ==> GoodAt(b, j)
    ensures r == PortBegun(b, i) && AllGood(r)
  {
    r := PortBegun(b, i);
    NewPortKeepsTreeLive(b, i);
    forall j: nat | j < |r.ports|
      ensures GoodAt(r, j)
    {
      NewAmongGood(b, i, j);
    }
  }

  lemma AdditionIsBegun(b: BState, portId: u16, cost: u32)
    requires Inv(b) && b.cfg.enabled
    ensures Inv(Added(b, portId, cost)) && |Added(b, portId, cost).ports| == |b.ports| + 1
    ensures PortEventDone(AddPort(portId, cost), b) == PortBegun(Added(b, portId, cost), |b.ports|)
  {
    AdditionKeepsInv(b, portId, cost);
    AdditionBegins(AddPort(portId, cost), b);
    NewPortIsLast(Added(b, portId, cost));
  }

  lemma AdditionMakesGood(b: BState, portId: u16, cost: u32) returns (s: BState)
    requires Inv(b) && AllGood(b)
    ensures Inv(Added(b, portId, cost)) && |Added(b, portId, cost).ports| == |b.ports| + 1
    ensures s == PortBegun(Added(b, portId, cost), |b.ports|) && AllGood(s)
  {
    var r := AddedAmongGood(b, portId, cost);
    s := NewPortMakesGood(r, |b.ports|);
  }

  lemma AdditionKeepsGood(b: BState, portId: u16, cost: u32)
    requires Inv(b) && b.cfg.enabled && AllGood(b)
    ensures AllGood(PortEventDone(AddPort(portId, cost), b))
  {
    var s := AdditionMakesGood(b, portId, cost);
    AdditionIsBegun(b, portId, cost);
  }

  // ---- Settings ----

  /** A change that concerns none of this. */
  predicate Mild(prt: Port, p: Ptp, prt': Port, q: Ptp) {
    && prt'.portEnabled == prt.portEnabled && prt'.rcvdBpdu == prt.rcvdBpdu && prt'.bpdu == prt.bpdu
    && prt'.rcvdInternal == prt.rcvdInternal && (EdgeFits(prt) ==> EdgeFits(prt'))
    && q == p.(portId := q.portId, internalCost := q.internalCost, proposing := q.proposing, selected := q.selected,
               reselect := q.reselect, portTimes := p.portTimes.(hello := q.portTimes.hello))
    && (RoleDue(p) ==> RoleDue(q))
  }

  lemma MildKeepsGood(prt: Port, p: Ptp, prt': Port, q: Ptp, cfg: Config, cfg': Config)
    requires Mild(prt, p, prt', q) && GoodPort(prt, p, cfg) && cfg'.configId == cfg.configId
    ensures GoodPort(prt', q, cfg')
  {
  }

  ghost predicate MildAt(b: BState, r: BState, i: nat) {
    i < |b.ports| == |b.tree.ptps| == |r.ports| == |r.tree.ptps|
    && Mild(b.ports[i], b.tree.ptps[i], r.ports[i], r.tree.ptps[i])
  }

  lemma SettingIsMild(s: Setting, b: BState, i: nat)
    requires Inv(b) && i < |b.ports| && (s.EnableBridge? ==> s.up == b.cfg.enabled)
    ensures MildAt(b, AfterSetting(s, b), i)
  {
    if !InRange(s, b) {
      assert AfterSetting(s, b) == b;
    } else if s.PortPriority? || s.PortLink? || s.PortConfig? {
      PortSettingIsMild(s, b, i);
    } else {
      BridgeSettingIsMild(s, b, i);
    }
  }

  lemma PortSettingIsMild(s: Setting, b: BState, i: nat)
    requires Inv(b) && InRange(s, b) && i < |b.ports| && (s.PortPriority? || s.PortLink? || s.PortConfig?)
    ensures MildAt(b, AfterSetting(s, b), i)
  {
  }

  lemma BridgeSettingIsMild(s: Setting, b: BState, i: nat)
    requires Inv(b) && InRange(s, b) && i < |b.ports| && (s.EnableBridge? ==> s.up == b.cfg.enabled)
    requires !s.PortPriority? && !s.PortLink? && !s.PortConfig?
    ensures MildAt(b, AfterSetting(s, b), i)
  {
  }

  lemma SettingKeepsTree(s: Setting, b: BState)
    requires Inv(b)
    ensures var r := AfterSetting(s, b);
            && (Live(b.tree.bridgeTimes) ==> Live(r.tree.bridgeTimes)) && (TreeLive(b.tree) ==> TreeLive(r.tree))
            && (!s.EnableBridge? ==> r.cfg.enabled == b.cfg.enabled)
            && (!s.ConfigId? ==> r.cfg.configId == b.cfg.configId)
  {
  }

  lemma QuietSettingKeepsGood(s: Setting, b: BState)
    requires Inv(b) && AllGood(b) && !Restarts(s, b)
    ensures AllGood(AfterSetting(s, b))
  {
    SettingKeepsTree(s, b);
    SettingKeepsInv(s, b);
    var r := AfterSetting(s, b);
    forall i: nat | i < |r.ports|
      ensures GoodAt(r, i)
    {
      assert GoodAt(b, i);
      SettingIsMild(s, b, i);
      MildKeepsGood(b.ports[i], b.tree.ptps[i], r.ports[i], r.tree.ptps[i], b.cfg, r.cfg);
    }
  }

  /** Before a restart no update is pending on a port that is down. */
  lemma RestartUnsticks(s: Setting, b: BState)
    requires Inv(b) && Good(b) && Restarts(s, b) && AfterSetting(s, b).cfg.enabled
    ensures NoneStuck(AfterSetting(s, b))
  {
    var r := AfterSetting(s, b);
    SettingKeepsInv(s, b);
    if !s.EnableBridge? {
      SettingKeepsTree(s, b);
      GoodIsUnstuck(b);
      forall i | 0 <= i < |r.ports| && r.ports[i].portEnabled.Off?
        ensures r.tree.ptps[i].updtInfo.Off?
      {
        SettingIsMild(s, b, i);
      }
    }
  }

  lemma ConfigureKeepsGood(s: Setting, b: BState)
    requires Inv(b) && Good(b)
    ensures Good(After(Configure(s), b))
  {
    var r := AfterSetting(s, b);
    SettingKeepsInv(s, b);
    SettingKeepsTree(s, b);
    if Restarts(s, b) {
      if r.cfg.enabled {
        RestartUnsticks(s, b);
        BeginMakesGood(r);
      }
    } else if r.cfg.enabled {
      QuietSettingKeepsGood(s, b);
    }
  }

  // ---- Events on ports ----

  /** What the event needs of an enabled bridge: a message of the region, or one that meets an unread message of the
      region, does not carry a Max Age and a Forward Delay of 0 both; and no update is pending on a port that goes
      down. */
  predicate Meets(e: Event, b: BState)
  {
    e.OnPorts? && b.cfg.enabled && Exists(e.p, b) && |b.ports| == |b.tree.ptps| ==>
      match e.p
      case RxBpdu(i, msg, _) =>
        || (msg.version == ProtoMSTP && b.cfg.configId == msg.configId)
        || (b.tree.ptps[i].rcvdMsg.On? && b.ports[i].rcvdInternal.On?)
        ==> LiveMessage(msg)
      case PortDown(i) => b.ports[i].portEnabled.On? ==> b.tree.ptps[i].updtInfo.Off?
      case DeletePort(i, _) => b.ports[i].portEnabled.On? ==> b.tree.ptps[i].updtInfo.Off?
      case _ => true
  }

  /** The port on which the event takes effect; the others are as before. */
  ghost predicate OnlyAt(b: BState, r: BState, i: nat) {
    && |b.ports| == |b.tree.ptps| == |r.ports| == |r.tree.ptps| && r.cfg == b.cfg && TreeChange(b.tree, r.tree)
    && forall j :: 0 <= j < |b.ports| && j != i ==> r.ports[j] == b.ports[j] && r.tree.ptps[j] == b.tree.ptps[j]
  }

  lemma OthersStayGood(b: BState, r: BState, i: nat)
    requires OnlyAt(b, r, i) && AllGood(b) && GoodAt(r, i)
    ensures AllGood(r)
  {
    forall j: nat | j < |r.ports|
      ensures GoodAt(r, j)
    {
      if j != i { assert GoodAt(b, j); }
    }
  }

  lemma OthersStayReady(b: BState, r: BState, i: nat)
    requires OnlyAt(b, r, i) && AllGood(b) && HoldsAt(r, i, ReadyIn(r.cfg))
    ensures AllReady(r)
  {
    forall j: nat | j < |r.ports|
      ensures HoldsAt(r, j, ReadyIn(r.cfg))
    {
      if j != i { assert GoodAt(b, j); }
    }
  }

  lemma ReceivedIsGood(b: BState, i: nat, msg: Bpdu, mstis: nat)
    requires Inv(b) && b.cfg.enabled && i < |b.ports| && GoodAt(b, i) && Meets(OnPorts(RxBpdu(i, msg, mstis)), b)
    ensures GoodAt(Received(b, i, msg, mstis), i)
  {
  }

  /** Events that take no port down, and neither add nor remove one. */
  lemma QuietPortEventKeepsGood(p: PortEvent, b: BState)
    requires Inv(b) && b.cfg.enabled && Exists(p, b) && AllGood(b) && Meets(OnPorts(p), b)
    requires p.RxBpdu? || p.PortUp? || p.Mcheck?
    ensures AllGood(AfterPortEvent(p, b))
  {
    assert GoodAt(b, p.i);
    if p.RxBpdu? { ReceivedIsGood(b, p.i, p.msg, p.mstis); }
    OthersStayGood(b, AfterPortEvent(p, b), p.i);
  }

  lemma GoingDownIsReady(p: PortEvent, b: BState)
    requires Inv(b) && Exists(p, b) && AllGood(b) && (p.PortDown? || p.DeletePort?)
    requires b.ports[p.i].portEnabled.On? ==> b.tree.ptps[p.i].updtInfo.Off?
    ensures AllReady(AfterPortEvent(p, b))
  {
    assert GoodAt(b, p.i);
    OthersStayReady(b, AfterPortEvent(p, b), p.i);
  }

  /** A port is unlinked only when it is down and its timer has stopped. */
  lemma DeletedIsStopped(p: PortEvent, b: BState) returns (r: BState)
    requires Inv(b) && b.cfg.enabled && Exists(p, b) && p.DeletePort? && AllGood(b) && Meets(OnPorts(p), b)
    ensures Inv(AfterPortEvent(p, b)) && r == Seen(p, b, AfterPortEvent(p, b))
    ensures Inv(r) && AllGood(r) && |r.ports| == |b.ports| && PortEventDone(p, b) == Removed(r, p.i)
    ensures r.ports[p.i].portEnabled.Off? && r.tree.ptps[p.i].tcWhile == 0
  {
    PortEventKeepsInv(p, b);
    r := SeenIsGood(p, b, AfterPortEvent(p, b));
    assert GoodAt(r, p.i);
  }

  /** The passes that see a port go down leave all ports good. */
  lemma SeenIsGood(p: PortEvent, b: BState, first: BState) returns (r: BState)
    requires Inv(b) && b.cfg.enabled && Exists(p, b) && (p.DeletePort? || p.PortDown?)
    requires AllGood(b) && Meets(OnPorts(p), b) && first == AfterPortEvent(p, b) && Inv(first)
    ensures r == Seen(p, b, first) && Inv(r) && AllGood(r) && r.ports[p.i].portEnabled.Off?
  {
    r := first;
    if TakesDown(p, b) {
      GoingDownIsReady(p, b);
      PassMakesGood(first);
      PassKeepsLink(first, p.i);
      r := Pass(first);
      if p.DeletePort? {
        PassesKeepLink(Pass(first), p.i, p.passes);
        PassesKeepGood(Pass(first), p.passes);
        r := Passes(Pass(first), p.passes);
      }
    } else {
      assert GoodAt(b, p.i);
      OthersStayGood(b, first, p.i);
    }
  }

  lemma PassesKeepLink(b: BState, i: nat, n: nat)
    requires Inv(b) && i < |b.ports|
    ensures Passes(b, n).ports[i].portEnabled == b.ports[i].portEnabled
  {
    var up := b.ports[i].portEnabled;
    forall c: BState | Inv(c) && i < |c.ports| && c.ports[i].portEnabled == up
      ensures i < |Pass(c).ports| && Pass(c).ports[i].portEnabled == up
    {
      PassKeepsLink(c, i);
    }
    KeptByPasses((c: BState) => i < |c.ports| && c.ports[i].portEnabled == up, b, n);
  }

  lemma RemovalKeepsGood(b: BState, i: nat)
    requires Inv(b) && i < |b.ports| && AllGood(b)
    ensures AllGood(Removed(b, i))
  {
    var r := Removed(b, i);
    forall j: nat | j < |r.ports|
      ensures GoodAt(r, j)
    {
      assert GoodAt(b, if j < i then j else j + 1);
    }
  }

  lemma PortEventKeepsGood(p: PortEvent, b: BState)
    requires Inv(b) && b.cfg.enabled && Exists(p, b) && AllGood(b) && Meets(OnPorts(p), b)
    ensures AllGood(PortEventDone(p, b))
  {
    PortEventKeepsInv(p, b);
    if p.AddPort? {
      AdditionKeepsGood(b, p.portId, p.internalCost);
    } else if p.DeletePort? {
      var r := DeletedIsStopped(p, b);
      RemovalKeepsGood(r, p.i);
    } else if p.PortDown? {
      var r := SeenIsGood(p, b, AfterPortEvent(p, b));
    } else {
      QuietPortEventKeepsGood(p, b);
    }
  }

  // ---- Every event ----

  lemma DisabledEventKeepsGood(e: Event, b: BState)
    requires Inv(b) && Good(b) && !b.cfg.enabled && !e.Configure?
    ensures Good(After(e, b))
  {
  }

  lemma EventKeepsGood(e: Event, b: BState)
    requires Inv(b) && Good(b) && Meets(e, b)
    ensures Good(After(e, b))
  {
    if e.Configure? {
      ConfigureKeepsGood(e.s, b);
    } else if !b.cfg.enabled {
      DisabledEventKeepsGood(e, b);
    } else {
      match e
      case RunPass =>
        GoodIsReady(b);
        PassMakesGood(b);
      case OneSecond => SecondKeepsGood(b);
      case BeginAll =>
        GoodIsUnstuck(b);
        BeginMakesGood(b);
      case OnPorts(p) =>
        if Exists(p, b) { PortEventKeepsGood(p, b); } else { NoSuchPort(p, b); }
        PortEventDoneKeepsInv(p, b);
    }
  }

  // ---- What a quiet bridge meets ----

  /** When a dry run of the pass reports nothing, no update and no message is pending on any port. */
  lemma QuietHasNothingPending(b: BState, i: nat)
    requires Inv(b) && AllGood(b) && !DryPass(b) && i < |b.ports|
    ensures b.tree.ptps[i].updtInfo.Off? && b.tree.ptps[i].rcvdMsg.Off?
  {
    assert GoodAt(b, i) && EntryAt(b, i);
    assert b.tree.ptps[i].reselect.Off? && !Enabled(Information, b, i);
    RestingHasNothingPending(ColumnOf(b, i));
  }

  lemma RestingHasNothingPending(c: PI.Column)
    requires |c.ptps| == 1 && c.ptps[0].mstid == 0 && (c.prt.portEnabled.Off? ==> c.ptps[0].updtInfo.Off?)
    requires PI.Target(c, 0).None? && PIT.OriginFits(c.ptps[0]) && RoleDue(c.ptps[0]) && c.ptps[0].reselect.Off?
    ensures c.ptps[0].updtInfo.Off? && c.ptps[0].rcvdMsg.Off?
  {
  }

  /** So whatever arrives when the driver loop has ended by itself meets what it needs, provided that messages of the
      region carry times. */
  lemma QuietMeets(e: Event, b: BState)
    requires Inv(b) && Good(b) && (b.cfg.enabled ==> !DryPass(b))
    requires e.OnPorts? && e.p.RxBpdu? && e.p.msg.version == ProtoMSTP && b.cfg.configId == e.p.msg.configId ==>
               LiveMessage(e.p.msg)
    ensures Meets(e, b)
  {
    if e.OnPorts? && b.cfg.enabled && !e.p.AddPort? && Exists(e.p, b) { QuietHasNothingPending(b, e.p.i); }
  }
}
