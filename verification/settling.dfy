/** After an actual run of a machine on a port, a dry run of the same machine on that port reports nothing. */
module Settling {
  import opened Types
  import opened Driver
  import opened PassStages
  import RT = RoleTransitions
  import RoleChains
  import PI = PortInfo
  import PIT = PortInfoTheorems
  import PM = PortMachines
  import TX = Transmit
  import TC = TopologyChange

  /** Bridge Detection makes one transition in a run; these are the ports for which the opposite one is then enabled. */
  predicate Flips(prt: Port, cist: Ptp) {
    var idle := prt.edgeDelayWhile == 0 && prt.autoEdge.On? && prt.sendRSTP.On? && cist.proposing.On?;
    match prt.bdsm
    case NotEdge => idle && prt.portEnabled.Off? && prt.adminEdge.Off?
    case Edge =>
      if prt.operEdge.Off? then idle || (prt.portEnabled.Off? && prt.adminEdge.On?)
      else idle && prt.portEnabled.Off? && prt.adminEdge.Off?
  }

  lemma DetectionSettlesIff(prt: Port, cist: Ptp)
    ensures PM.BdsmTarget(PM.BdsmRun(prt, cist), cist).Some? <==> Flips(prt, cist)
  {
  }

  lemma PutIsRead(b: BState, i: nat, c: PI.Column)
    requires i < |b.ports| == |b.tree.ptps| && |c.ptps| == 1
    ensures ColumnOf(PutColumn(b, i, c), i) == c
  {
    assert c.ptps == [c.ptps[0]];
  }

  lemma ReceiveSettles(c: PI.Column, cfg: Config)
    requires PI.ColumnOk(c)
    ensures !PM.PrsmDry(PM.PrsmRun(c, cfg), cfg)
  {
  }

  lemma TransmissionSettles(b: BState, i: nat)
    requires Inv(b) && i < |b.ports|
    ensures !Enabled(Transmission, RunTransmission(b, i), i)
  {
    assert EntryAt(b, i);
    var c := ColumnOf(b, i);
    TX.RestComesToRest(c, b.cfg, i);
    assert ColumnOf(RunTransmission(b, i), i) == c.(prt := TX.Rest(c, b.cfg, i).0);
  }

  lemma InformationSettles(b: BState, i: nat)
    requires Inv(b) && i < |b.ports|
    ensures !Enabled(Information, PutColumn(b, i, PI.Rest(ColumnOf(b, i), 0, b.cfg)), i)
  {
    assert EntryAt(b, i);
    PIT.RestComesToRest(ColumnOf(b, i), 0, b.cfg);
    PutIsRead(b, i, PI.Rest(ColumnOf(b, i), 0, b.cfg));
  }

  lemma RoleTransitionSettles(b: BState, i: nat)
    requires Inv(b) && i < |b.ports|
    ensures !Enabled(RoleTransition, RunRoleTransition(b, i), i)
  {
    assert EntryAt(b, i);
    var row := RT.Row(b.ports[i], b.tree.ptps);
    var r := RoleRunEnds(b.cfg, row, i);
    var s := RunRoleTransition(b, i);
    assert RT.Row(s.ports[i], s.tree.ptps) == r && RoleEnv(s, i) == RT.EnvOf(b.cfg, r.ptps[i], r.prt, true);
  }

  lemma RoleRunEnds(cfg: Config, row: RT.Row, i: nat) returns (r: RT.Row)
    requires i < |row.ptps| && row.ptps[i].selectedRole != RoleMaster && RT.FamilyOf(row.ptps[i].prtsm) != RT.FamMaster
    ensures |r.ptps| == |row.ptps| && r == RT.Rest(row, i, RT.EnvOf(cfg, row.ptps[i], row.prt, true))
    ensures RT.RowTarget(r, i, RT.EnvOf(cfg, r.ptps[i], r.prt, true)).None?
  {
    var env := RT.EnvOf(cfg, row.ptps[i], row.prt, true);
    r := RT.Rest(row, i, env);
    RT.RestComesToRest(row, i, env);
    RT.RestIsFramed(row, i, env);
    RoleChains.SameEnv(cfg, row.ptps[i], row, r, i, true);
  }

  lemma StateTransitionSettles(b: BState, i: nat)
    requires Inv(b) && i < |b.ports|
    ensures !Enabled(StateTransition, RunStateTransition(b, i), i)
  {
    assert EntryAt(b, i);
    PM.PstsmAligns(b.tree.ptps[i], b.ports[i].deleted, i);
  }

  lemma TopologySettles(b: BState, i: nat)
    requires Inv(b) && i < |b.ports|
    ensures !Enabled(TopologyTc, RunTopology(b, i), i)
  {
    assert EntryAt(b, i);
    var c, env := TC.Ctx(b.tree, b.ports[i], b.out), TC.EnvOf(b.cfg, b.tree.ptps[i]);
    var r := TC.Rest(c, i, env, i);
    TC.RestComesToRest(c, i, env, i);
    TC.RestIsFramed(c, i, env, i);
    TC.DryIsWrongIff(r.tree.ptps[i], r.prt);
  }

  /** Whichever machine has run, a dry run of it then reports nothing, unless it is Bridge Detection on a port that
      flips. */
  lemma RunSettles(m: Machine, b: BState, i: nat)
    requires Inv(b) && i < |b.ports|
    ensures var r := RunOn(m, b, i); i < |r.ports| == |r.tree.ptps|
    ensures Enabled(m, RunOn(m, b, i), i) <==> m == Detection && Flips(b.ports[i], b.tree.ptps[i])
  {
    assert EntryAt(b, i);
    RunKeepsInv(m, b, i);
    match m
    case Assurance =>
    case Receive =>
      ReceiveSettles(ColumnOf(b, i), b.cfg);
      PutIsRead(b, i, PM.PrsmRun(ColumnOf(b, i), b.cfg));
    case Migration => PM.PpmsmComesToRest(b.ports[i], b.cfg);
    case Detection => DetectionSettlesIff(b.ports[i], b.tree.ptps[i]);
    case Transmission => TransmissionSettles(b, i);
    case Information => InformationSettles(b, i);
    case RoleTransition => RoleTransitionSettles(b, i);
    case StateTransition => StateTransitionSettles(b, i);
    case TopologyTc => TopologySettles(b, i);
  }

  /** So a machine that does not flip is idempotent: a second run in a row changes nothing. */
  lemma SecondRunIsIdle(m: Machine, b: BState, i: nat)
    requires Inv(b) && i < |b.ports|
    ensures Inv(RunOn(m, b, i)) && |RunOn(m, b, i).ports| == |b.ports|
    ensures RunOn(m, RunOn(m, b, i), i) == RunOn(m, b, i) <==> !(m == Detection && Flips(b.ports[i], b.tree.ptps[i]))
  {
    RunKeepsInv(m, b, i);
    RunSettles(m, b, i);
    DryIffChange(m, RunOn(m, b, i), i);
  }

  // ---- In a pass every machine settles ----

  /** The state of Bridge Detection and the variable that it sets agree. */
  predicate EdgeFits(prt: Port) {
    prt.bdsm == Edge <==> prt.operEdge.On?
  }

  /** After Port Receive: a port that is down, or has just received, waits for the Migrate Time before it can become an
      edge. */
  predicate EdgeWaits(prt: Port, migrateTime: nat) {
    && (prt.portEnabled.Off? ==> prt.edgeDelayWhile == migrateTime)
    && (EdgeFits(prt) || (prt.portEnabled.On? && prt.operEdge.Off? && prt.edgeDelayWhile == migrateTime))
  }

  ghost function Fitting(): PortProp {
    (prt: Port, p: Ptp) => EdgeFits(prt)
  }

  ghost function Waiting(cfg: Config): PortProp {
    (prt: Port, p: Ptp) => EdgeWaits(prt, cfg.migrateTime)
  }

  ghost function EdgeStage(cfg: Config, k: nat): PortProp {
    if k == 2 || k == 3 then Waiting(cfg) else Fitting()
  }

  ghost function EdgePlan(cfg: Config): Plan {
    Plan((k: nat) => EdgeStage(cfg, k), Fitting())
  }

  lemma ReceiveWaits(cfg: Config)
    ensures Leads(Receive, cfg, Fitting(), Waiting(cfg))
  {
    forall b, i: nat | Inv(b) && b.cfg == cfg && HoldsAt(b, i, Fitting())
      ensures HoldsAt(RunOn(Receive, b, i), i, Waiting(cfg))
    {
      assert EntryAt(b, i);
      ReceiveRunWaits(ColumnOf(b, i), cfg);
    }
  }

  lemma ReceiveRunWaits(c: PI.Column, cfg: Config)
    requires PI.ColumnOk(c) && EdgeFits(c.prt)
    ensures EdgeWaits(PM.PrsmRun(c, cfg).prt, cfg.migrateTime)
  {
  }

  lemma DetectionFits(cfg: Config)
    ensures Leads(Detection, cfg, Waiting(cfg), Fitting())
  {
    forall b, i: nat | Inv(b) && b.cfg == cfg && HoldsAt(b, i, Waiting(cfg))
      ensures HoldsAt(RunOn(Detection, b, i), i, Fitting())
    {
      DetectionRunFits(b.ports[i], b.tree.ptps[i], cfg.migrateTime);
    }
  }

  lemma DetectionRunFits(prt: Port, cist: Ptp, migrateTime: nat)
    requires EdgeWaits(prt, migrateTime)
    ensures EdgeFits(PM.BdsmRun(prt, cist))
    ensures migrateTime > 0 ==> !Flips(prt, cist)
  {
  }

  lemma EdgeStays(m: Machine, prt: Port, p: Ptp, prt': Port, q: Ptp, migrateTime: nat)
    requires m != Receive && m != Detection && OwnChange(m, prt, p, prt', q)
    ensures EdgeFits(prt) ==> EdgeFits(prt')
    ensures m == Migration && EdgeWaits(prt, migrateTime) ==> EdgeWaits(prt', migrateTime)
  {
  }

  lemma OthersKeepEdge(m: Machine, cfg: Config)
    requires m != Receive && m != Detection
    ensures if m == Migration then Leads(m, cfg, Waiting(cfg), Waiting(cfg)) else Leads(m, cfg, Fitting(), Fitting())
  {
    forall b, i: nat | Inv(b) && b.cfg == cfg && i < |b.ports|
      ensures var r := RunOn(m, b, i);
              && i < |r.ports| == |r.tree.ptps| && (EdgeFits(b.ports[i]) ==> EdgeFits(r.ports[i]))
              && (m == Migration && EdgeWaits(b.ports[i], cfg.migrateTime) ==> EdgeWaits(r.ports[i], cfg.migrateTime))
    {
      RunIsConfined(m, b, i);
      EdgeStays(m, b.ports[i], b.tree.ptps[i], RunOn(m, b, i).ports[i], RunOn(m, b, i).tree.ptps[i], cfg.migrateTime);
    }
  }

  lemma EdgePlanLeadsAt(cfg: Config, k: nat)
    requires k < PHASES
    ensures LeadsAt(EdgePlan(cfg), cfg, k)
  {
    if k == 1 {
      ReceiveWaits(cfg);
    } else if k == 3 {
      DetectionFits(cfg);
    } else {
      OthersKeepEdge(Turn(k), cfg);
    }
  }

  lemma EdgePlanIsSound(cfg: Config)
    ensures Sound(EdgePlan(cfg), cfg)
  {
    forall k: nat | k < PHASES
      ensures LeadsAt(EdgePlan(cfg), cfg, k)
    {
      EdgePlanLeadsAt(cfg, k);
    }
  }

  lemma PassKeepsEdge(b: BState, i: nat)
    requires Inv(b) && i < |b.ports| && EdgeFits(b.ports[i])
    ensures EdgeFits(Pass(b).ports[i])
  {
    EdgePlanIsSound(b.cfg);
    PlanHoldsAtEnd(EdgePlan(b.cfg), b, i);
  }

  /** The state in which machine `k` of a pass comes to port `i`. */
  ghost function TurnStart(b: BState, k: nat, i: nat): BState
    requires k < PHASES
  {
    InTurn(Step(Turn(k)), PhaseStart(b, k), i)
  }

  lemma TurnStartKeepsInv(b: BState, k: nat, i: nat)
    requires Inv(b) && k < PHASES && i < |b.ports|
    ensures var r := TurnStart(b, k, i); Inv(r) && |r.ports| == |b.ports| && r.cfg == b.cfg
  {
    StepIsHarmless(Turn(k));
    InTurnKeepsInv(Step(Turn(k)), PhaseStart(b, k), i);
  }

  lemma DetectionWaits(b: BState, i: nat)
    requires Inv(b) && i < |b.ports| && EdgeFits(b.ports[i])
    ensures HoldsAt(TurnStart(b, 3, i), i, Waiting(b.cfg))
  {
    EdgePlanIsSound(b.cfg);
    PlanHolds(EdgePlan(b.cfg), b, i, 3);
    assert LeadsAt(EdgePlan(b.cfg), b.cfg, 3);
    BeforeItsTurn(Detection, PhaseStart(b, 3), i, Waiting(b.cfg), Fitting());
  }

  /** In a pass over ports whose edge variables agree, every machine settles: after it has run on a port, a dry run of
      it on that port reports nothing. */
  lemma EveryTurnSettles(b: BState, k: nat, i: nat)
    requires Inv(b) && k < PHASES && i < |b.ports| && EdgeFits(b.ports[i])
    ensures !Enabled(Turn(k), RunOn(Turn(k), TurnStart(b, k, i), i), i)
  {
    var c := TurnStart(b, k, i);
    TurnStartKeepsInv(b, k, i);
    RunSettles(Turn(k), c, i);
    if k == 3 {
      DetectionWaits(b, i);
      DetectionRunFits(c.ports[i], c.tree.ptps[i], b.cfg.migrateTime);
    }
  }
}
