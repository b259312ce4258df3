/** A port that is deleted while an update of its information is pending. The driver loop ends with an update pending
    only when its second is over; the timer of the port is then not stopped, and the flag stays up without it. */
module PendingDeletion {
  import opened Types
  import opened Driver
  import opened PassStages
  import opened DownPorts
  import opened Runs
  import opened TimerHistories
  import RT = RoleTransitions
  import PI = PortInfo
  import PIT = PortInfoTheorems
  import TC = TopologyChange

  /** A Designated Port that is down with an update pending, and its timer running. */
  predicate StillRunning(prt: Port, p: Ptp) {
    Stuck(prt, p, RoleDesignated) && prt.rcvdTcAck.Off? && p.tcWhile != 0
  }

  predicate StillRunningInformed(prt: Port, p: Ptp) {
    StillRunning(prt, p) && p.infoIs == IoDisabled
  }

  ghost function RunningPlan(): Plan {
    Plan((k: nat) => StillRunning, StillRunningInformed)
  }

  // ---- Information ----

  lemma {:induction false} DownRunReceivesNothing(c: PI.Column, k: nat, cfg: Config)
    requires k < |c.ptps| && c.prt.portEnabled.Off? && (c.ptps[k].infoIs == IoDisabled ==> c.ptps[k].pism == PiDisabled)
    ensures PI.Rest(c, k, cfg).prt == c.prt
    decreases PI.Measure(c, k)
  {
    var x := PI.Target(c, k);
    if x.Some? {
      PI.StepDecreases(c, k, cfg);
      PI.EnterControls(c, k, x.value, cfg);
      DownRunReceivesNothing(PI.Enter(c, k, x.value, cfg), k, cfg);
    }
  }

  lemma RunningInformation(cfg: Config)
    ensures Leads(Information, cfg, StillRunning, StillRunningInformed)
  {
    forall b, i: nat | Inv(b) && b.cfg == cfg && HoldsAt(b, i, StillRunning)
      ensures HoldsAt(RunOn(Information, b, i), i, StillRunningInformed)
    {
      assert EntryAt(b, i);
      PIT.RestIsFramed(ColumnOf(b, i), 0, cfg);
      DownRunKeepsUpdate(ColumnOf(b, i), 0, cfg);
      DownRunReceivesNothing(ColumnOf(b, i), 0, cfg);
    }
  }

  lemma RunningSelection(cfg: Config)
    ensures SelectionLeads(cfg, StillRunningInformed, StillRunning)
  {
    forall b, i: nat | Inv(b) && b.cfg == cfg && HoldsAt(b, i, StillRunningInformed)
      ensures HoldsAt(SelectRoles(b), i, StillRunning)
    {
      if SelectionEnabled(b) {
        SelectedEntry(b, i);
        ClausesFAndH(b, i);
      }
    }
  }

  // ---- Role transitions ----

  lemma RunningRoles(cfg: Config)
    ensures Leads(RoleTransition, cfg, StillRunning, StillRunning)
  {
    forall b, i: nat | Inv(b) && b.cfg == cfg && HoldsAt(b, i, StillRunning)
      ensures HoldsAt(RunRoleTransition(b, i), i, StillRunning)
    {
      assert EntryAt(b, i);
      RunningRoleRun(RT.Row(b.ports[i], b.tree.ptps), i, RoleEnv(b, i));
    }
  }

  lemma RunningRoleRun(row: RT.Row, i: nat, env: RT.Env)
    requires i < |row.ptps| && EntryOk(row.ptps[i]) && StillRunning(row.prt, row.ptps[i])
    ensures var s := RT.Rest(row, i, env); |s.ptps| == |row.ptps| && StillRunning(s.prt, s.ptps[i])
  {
    RT.RestIsFramed(row, i, env);
    UnsettledRoleStays(row, i, env);
  }

  // ---- Topology change ----

  /** The timer and the flag of the tree are as before. */
  ghost predicate TimerKept(c: TC.Ctx, r: TC.Ctx, i: nat) {
    && i < |c.tree.ptps| == |r.tree.ptps| && r.tree.ptps[i].tcWhile == c.tree.ptps[i].tcWhile
    && r.tree.topologyChange == c.tree.topologyChange
  }

  lemma RunningEntry(c: TC.Ctx, i: nat, x: TcsmState, env: TC.Env, port: nat)
    requires i < |c.tree.ptps| && c.tree.ptps[i].tcWhile != 0 && x != TcInactive && x != TcAcknowledged
    ensures TimerKept(c, TC.Enter(c, i, x, env, port), i)
  {
    var d := TC.Put(c, i, c.tree.ptps[i].(tcsm := x));
    assert TC.NewTcWhile(d, i, env) == d;
    if x == TcPropagating { TC.SetFdbFlushFramed(d, i, env, port); }
  }

  /** On an active port that has received no acknowledgement, a running timer goes on. */
  lemma {:induction false} RunningRest(c: TC.Ctx, i: nat, env: TC.Env, port: nat)
    requires i < |c.tree.ptps| && c.tree.ptps[i].mstid == 0 && TC.ActivePort(c.tree.ptps[i])
    requires c.prt.rcvdTcAck.Off? && c.tree.ptps[i].tcWhile != 0
    ensures var r := TC.Rest(c, i, env, port); TimerKept(c, r, i) && r.prt.rcvdTcAck.Off?
    decreases TC.Measure(c.tree.ptps[i], c.prt)
  {
    var x := TC.Target(c.tree.ptps[i], c.prt);
    if x.Some? {
      TC.StepDecreases(c, i, env, port);
      TC.EnterControls(c, i, x.value, env, port);
      RunningEntry(c, i, x.value, env, port);
      RunningRest(TC.Enter(c, i, x.value, env, port), i, env, port);
    }
  }

  lemma RunningTopologyRun(b: BState, i: nat)
    requires Inv(b) && i < |b.ports| && StillRunning(b.ports[i], b.tree.ptps[i])
    ensures var r := RunTopology(b, i);
            && i < |r.ports| && i < |r.tree.ptps| && StillRunning(r.ports[i], r.tree.ptps[i])
            && r.tree.topologyChange == b.tree.topologyChange
  {
    assert EntryAt(b, i);
    var c, env := TC.Ctx(b.tree, b.ports[i], b.out), TC.EnvOf(b.cfg, b.tree.ptps[i]);
    TC.RestIsFramed(c, i, env, i);
    RunningRest(c, i, env, i);
  }

  lemma RunningTopology(cfg: Config)
    ensures Leads(TopologyTc, cfg, StillRunning, StillRunning)
  {
    forall b, i: nat | Inv(b) && b.cfg == cfg && HoldsAt(b, i, StillRunning)
      ensures HoldsAt(RunTopology(b, i), i, StillRunning)
    {
      RunningTopologyRun(b, i);
    }
  }

  // ---- A pass ----

  lemma RunningOtherwise(m: Machine, cfg: Config)
    requires m != Information && m != RoleTransition && m != TopologyTc
    ensures Leads(m, cfg, StillRunning, StillRunning)
  {
    forall b, i: nat | Inv(b) && b.cfg == cfg && HoldsAt(b, i, StillRunning)
      ensures HoldsAt(RunOn(m, b, i), i, StillRunning)
    {
      RunIsConfined(m, b, i);
      RunningStays(m, b.ports[i], b.tree.ptps[i], RunOn(m, b, i).ports[i], RunOn(m, b, i).tree.ptps[i]);
    }
  }

  lemma RunningStays(m: Machine, prt: Port, p: Ptp, prt': Port, q: Ptp)
    requires m != Information && m != RoleTransition && m != TopologyTc
    requires OwnChange(m, prt, p, prt', q) && StillRunning(prt, p)
    ensures StillRunning(prt', q)
  {
  }

  lemma RunningPlanLeadsAt(cfg: Config, k: nat)
    requires k < PHASES
    ensures LeadsAt(RunningPlan(), cfg, k)
  {
    RunningIsPrivate();
    if k == 5 {
      RunningInformation(cfg);
    } else if k == 6 {
      RunningRoles(cfg);
    } else if k == 8 {
      RunningTopology(cfg);
    } else {
      RunningOtherwise(Turn(k), cfg);
    }
  }

  lemma RunningIsPrivate()
    ensures Private(StillRunning) && Private(StillRunningInformed)
  {
  }

  lemma RunningPlanIsSound(cfg: Config)
    ensures Sound(RunningPlan(), cfg)
  {
    RunningSelection(cfg);
    forall k: nat | k < PHASES
      ensures LeadsAt(RunningPlan(), cfg, k)
    {
      RunningPlanLeadsAt(cfg, k);
    }
  }

  /** The only port of the bridge is such a port, and the flag is up. */
  ghost predicate OnlyPortRuns(b: BState) {
    |b.ports| == 1 && HoldsAt(b, 0, StillRunning) && b.tree.topologyChange
  }

  lemma OnePortPhase(b: BState)
    requires Inv(b) && |b.ports| == 1
    ensures Whole(TopologyTc, b) == RunTopology(b, 0)
  {
    assert InTurn(Step(TopologyTc), b, 1) == Step(TopologyTc)(InTurn(Step(TopologyTc), b, 0), 0);
  }

  lemma PassKeepsRunning(b: BState)
    requires Inv(b) && OnlyPortRuns(b)
    ensures OnlyPortRuns(Pass(b))
  {
    RunningPlanIsSound(b.cfg);
    PlanHolds(RunningPlan(), b, 0, 8);
    PlanHoldsAtEnd(RunningPlan(), b, 0);
    ReachedKeepsTimers(b, 8);
    OnePortPhase(PhaseStart(b, 8));
    RunningTopologyRun(PhaseStart(b, 8), 0);
    NextPhase(b, 8);
  }

  lemma PassesKeepRunning(b: BState, n: nat)
    requires Inv(b) && OnlyPortRuns(b)
    ensures OnlyPortRuns(Passes(b, n))
  {
    forall c: BState | Inv(c) && OnlyPortRuns(c)
      ensures OnlyPortRuns(Pass(c))
    {
      PassKeepsRunning(c);
    }
    KeptByPasses((c: BState) => OnlyPortRuns(c), b, n);
  }

  lemma SeenKeepsRunning(p: PortEvent, b: BState, first: BState)
    requires Exists(p, b) && p.DeletePort? && TakesDown(p, b) && Inv(first) && OnlyPortRuns(first)
    ensures OnlyPortRuns(Seen(p, b, first))
  {
    PassKeepsRunning(first);
    PassesKeepRunning(Pass(first), p.passes);
  }

  lemma EmptyIsStale(b: BState)
    requires |b.ports| == |b.tree.ptps| && OnlyPortRuns(b)
    ensures var r := Removed(b, 0); r.ports == [] && r.tree.topologyChange && !TC.FlagOk(r.tree)
  {
  }

  /** Deleting the only port of an enabled bridge while an update is pending on it and its timer runs leaves the flag
      up, although no timer is left; whatever the number of passes before it is unlinked. */
  lemma PendingDeletionLeavesFlag(b: BState, n: nat)
    requires Inv(b) && b.cfg.enabled && |b.ports| == 1 && b.ports[0].portEnabled.On? && b.tree.topologyChange
    requires var p := b.tree.ptps[0];
             p.updtInfo.On? && p.role == RoleDesignated && p.tcWhile != 0 && b.ports[0].rcvdTcAck.Off?
    ensures var r := PortEventDone(DeletePort(0, n), b); r.ports == [] && r.tree.topologyChange && !TC.FlagOk(r.tree)
  {
    var p := DeletePort(0, n);
    PortEventKeepsInv(p, b);
    SeenKeepsRunning(p, b, AfterPortEvent(p, b));
    EmptyIsStale(Seen(p, b, AfterPortEvent(p, b)));
  }

  /** Such a bridge. */
  function PendingBridge(): BState {
    var id, times := BridgeId(0x8000, 1), Times(20, 15, 20, 0, 2);
    var vec := Vec(id, 0, id, 0, id, 0);
    var tree := Tree(0, id, 0, vec, vec, times, times, 0, 1, true, RoleSelection, []);
    var p := CreatedEntry(tree, 0x8001, 20000).(
      pism := PiCurrent, infoIs := IoMine, selected := On, updtInfo := On, role := RoleDesignated,
      selectedRole := RoleDesignated, prtsm := DesignatedPort, tcsm := TcActive, tcWhile := 3,
      designatedTimes := times);
    BState(Config(true, [], ProtoRSTP, 20, 15, 20, 2, 6, 3, 300), [CreatedPort().(portEnabled := On, sendRSTP := On)],
           tree.(ptps := [p]), [])
  }

  lemma PendingBridgeLeavesFlag(n: nat)
    ensures var b := PendingBridge();
            && Inv(b) && TC.FlagOk(b.tree) && !TC.FlagOk(PortEventDone(DeletePort(0, n), b).tree)
  {
    var b := PendingBridge();
    assert b.tree.ptps[0].tcWhile != 0;
    forall i | 0 <= i < |b.ports|
      ensures EntryAt(b, i)
    {
    }
    PendingDeletionLeavesFlag(b, n);
  }
}
