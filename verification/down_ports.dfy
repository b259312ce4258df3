/** What becomes of a port that goes down: within one pass it takes the Disabled role and its topology change timer
    stops, unless an update of its information is pending. */
module DownPorts {
  import opened Types
  import opened Driver
  import opened PassStages
  import RT = RoleTransitions
  import PI = PortInfo
  import PIT = PortInfoTheorems
  import PM = PortMachines
  import TC = TopologyChange

  // ---- The stages of a pass ----

  /** An INACTIVE machine has stopped its timer. */
  predicate TimerFits(p: Ptp) {
    p.tcsm == TcInactive ==> p.tcWhile == 0
  }

  /** A role is selected, with an update where the information is aged; or its selection is requested. */
  predicate RoleDue(p: Ptp) {
    p.reselect.On? || (p.selected.On? && (p.infoIs == IoAged ==> p.updtInfo.On?))
  }

  predicate Gone(p: Ptp) {
    p.role == RoleDisabled && p.selectedRole == RoleDisabled
  }

  /** No update is pending on a port that is down. */
  predicate Ready(prt: Port, p: Ptp) {
    && TimerFits(p) && RoleDue(p) && (prt.portEnabled.Off? ==> p.updtInfo.Off?)
    && (p.infoIs == IoDisabled ==> Gone(p))
  }

  /** Information is disabled exactly on ports that are down. */
  predicate Informed(prt: Port, p: Ptp) {
    && TimerFits(p) && RoleDue(p) && (prt.portEnabled.Off? <==> p.infoIs == IoDisabled)
    && (prt.portEnabled.Off? ==> p.updtInfo.Off?)
  }

  predicate AfterInformation(prt: Port, p: Ptp) {
    Informed(prt, p) && (prt.portEnabled.Off? ==> p.reselect.On? || Gone(p))
  }

  predicate AfterSelection(prt: Port, p: Ptp) {
    Informed(prt, p) && (prt.portEnabled.Off? ==> p.selectedRole == RoleDisabled && (p.selected.On? || Gone(p)))
  }

  predicate AfterRoles(prt: Port, p: Ptp) {
    Informed(prt, p) && (prt.portEnabled.Off? ==> Gone(p))
  }

  predicate AfterStates(prt: Port, p: Ptp) {
    AfterRoles(prt, p) && (prt.portEnabled.Off? ==> p.learning.Off?)
  }

  /** A port without information, above all one that is down, has the Disabled role, and its timer is stopped. */
  predicate Steady(prt: Port, p: Ptp) {
    && TimerFits(p) && RoleDue(p) && (prt.portEnabled.Off? ==> p.infoIs == IoDisabled && p.updtInfo.Off?)
    && (p.infoIs == IoDisabled ==> Gone(p) && p.tcWhile == 0)
  }

  function Stage(k: nat): PortProp {
    if k <= 5 then Ready
    else if k == 6 then AfterSelection
    else if k == 7 then AfterRoles
    else if k == 8 then AfterStates
    else Steady
  }

  ghost function DownPlan(): Plan {
    Plan(Stage, AfterInformation)
  }

  // ---- Information ----

  predicate AsksForRole(x: PismState) {
    x == PiDisabled || x == PiAged || x == PiSuperior
  }

  lemma EnterAsksForRole(c: PI.Column, k: nat, x: PismState, cfg: Config)
    requires k < |c.ptps|
    ensures PI.Enter(c, k, x, cfg).ptps[k].reselect == if AsksForRole(x) then On else c.ptps[k].reselect
  {
    var c1 := PI.Mark(c, k, x);
    if x == PiRepeated { RecordsAskNothing(c1.(prt := c.prt.(infoInternal := c.prt.rcvdInternal)), k, cfg); }
    if x == PiReceive { assert PI.Enter(c, k, x, cfg) == PI.RecordMastered(PI.RcvInfo(c1, k, cfg), k); }
  }

  lemma RecordsAskNothing(c: PI.Column, k: nat, cfg: Config)
    requires k < |c.ptps|
    ensures PI.RecordAgreement(PI.SetTcFlags(PI.RecordProposal(c, k), k), k, cfg).ptps[k].reselect == c.ptps[k].reselect
  {
  }

  /** What a run of the information machine does to requests: it raises no update, and disabling the information asks
      for a role. */
  predicate Asked(p: Ptp, q: Ptp) {
    && (p.updtInfo.Off? ==> q.updtInfo.Off?) && (RoleDue(p) ==> RoleDue(q))
    && (p.reselect.On? ==> q.reselect.On?) && (q.infoIs == IoDisabled ==> p.infoIs == IoDisabled || q.reselect.On?)
  }

  lemma {:induction false} RunAsks(c: PI.Column, k: nat, cfg: Config)
    requires k < |c.ptps|
    ensures Asked(c.ptps[k], PI.Rest(c, k, cfg).ptps[k])
    decreases PI.Measure(c, k)
  {
    var x := PI.Target(c, k);
    if x.Some? {
      var next := PI.Enter(c, k, x.value, cfg);
      PI.StepDecreases(c, k, cfg);
      PI.EnterControls(c, k, x.value, cfg);
      EnterAsksForRole(c, k, x.value, cfg);
      RunAsks(next, k, cfg);
      AskedStep(c.ptps[k], next.ptps[k], PI.Rest(next, k, cfg).ptps[k]);
    }
  }

  lemma AskedStep(p: Ptp, q: Ptp, r: Ptp)
    requires Asked(q, r) && (p.updtInfo.Off? ==> q.updtInfo.Off?)
    requires q.reselect == (if AsksForRole(q.pism) then On else p.reselect)
    requires q.selected == (if AsksForRole(q.pism) then Off else p.selected)
    requires q.infoIs == IoDisabled ==> p.infoIs == IoDisabled || q.pism == PiDisabled
    requires q.infoIs == IoAged ==> q.pism == PiAged || (p.infoIs == IoAged && q.updtInfo == p.updtInfo)
    ensures Asked(p, r)
  {
  }

  lemma InformationLeads(cfg: Config)
    ensures Leads(Information, cfg, Ready, AfterInformation)
  {
    forall b, i: nat | Inv(b) && b.cfg == cfg && HoldsAt(b, i, Ready)
      ensures HoldsAt(RunOn(Information, b, i), i, AfterInformation)
    {
      assert EntryAt(b, i);
      var c := ColumnOf(b, i);
      PIT.RestComesToRest(c, 0, cfg);
      PIT.RestIsFramed(c, 0, cfg);
      RunAsks(c, 0, cfg);
      InformedColumn(c, PI.Rest(c, 0, cfg));
    }
  }

  lemma InformedColumn(c: PI.Column, r: PI.Column)
    requires |c.ptps| == |r.ptps| == 1 && Ready(c.prt, c.ptps[0])
    requires PI.PortFrame(c.prt, r.prt) && PI.OwnFrame(c.ptps[0], r.ptps[0]) && Asked(c.ptps[0], r.ptps[0])
    requires PI.Target(r, 0).None? && PIT.OriginFits(r.ptps[0])
    requires var x := r.ptps[0].pism; x == PiDisabled || x == PiAged || x == PiCurrent
    ensures AfterInformation(r.prt, r.ptps[0])
  {
  }

  // ---- Role selection ----

  lemma DownSelectionLeads(cfg: Config)
    ensures SelectionLeads(cfg, AfterInformation, AfterSelection)
  {
    forall b, i: nat | Inv(b) && b.cfg == cfg && HoldsAt(b, i, AfterInformation)
      ensures HoldsAt(SelectRoles(b), i, AfterSelection)
    {
      SelectionAt(b, i);
    }
  }

  lemma SelectionAt(b: BState, i: nat)
    requires Inv(b) && i < |b.ports| && AfterInformation(b.ports[i], b.tree.ptps[i])
    ensures AfterSelection(SelectRoles(b).ports[i], SelectRoles(b).tree.ptps[i])
  {
    var p := b.tree.ptps[i];
    if SelectionEnabled(b) {
      SelectedEntry(b, i);
      ClausesFAndH(b, i);
      SelectedFits(b.ports[i], p, Selected(b).tree.ptps[i]);
    } else {
      assert p.reselect.Off?;
    }
  }

  lemma SelectedFits(prt: Port, p: Ptp, q: Ptp)
    requires AfterInformation(prt, p)
    requires q == p.(reselect := Off, selected := On, selectedRole := q.selectedRole, updtInfo := q.updtInfo,
                     designatedPriority := q.designatedPriority, designatedTimes := q.designatedTimes)
    requires p.infoIs == IoDisabled ==> q.selectedRole == RoleDisabled && q.updtInfo == p.updtInfo
    requires p.infoIs == IoAged ==> q.updtInfo.On?
    ensures AfterSelection(prt, q)
  {
  }

  /** What clauses f) and h) do to ports without information and with aged information. */
  lemma ClausesFAndH(b: BState, i: nat)
    requires |b.ports| == |b.tree.ptps| && i < |b.ports| && b.tree.mstid == 0
    ensures var p, q := b.tree.ptps[i], Selected(b).tree.ptps[i];
            && (p.infoIs == IoDisabled ==> q.selectedRole == RoleDisabled && q.updtInfo == p.updtInfo)
            && (p.infoIs == IoAged ==> q.updtInfo.On?)
  {
  }

  // ---- Role transitions ----

  lemma {:induction false} DisabledRoleStays(row: RT.Row, i: nat, env: RT.Env)
    requires i < |row.ptps| && Gone(row.ptps[i]) && RT.FamilyOf(row.ptps[i].prtsm) == RT.FamDisabled
    ensures RT.Rest(row, i, env).ptps[i].role == RoleDisabled
    decreases RT.Measure(row.ptps[i], row.prt, env)
  {
    var x := RT.RowTarget(row, i, env);
    if x.Some? {
      var next := RT.RestStep(row, i, env);
      RT.StepDecreases(row.ptps[i], row.prt, env, RT.AllSynced(row.ptps, i), RT.ReRooted(row.ptps, i));
      DisabledTarget(row.ptps[i], row.prt, env, RT.AllSynced(row.ptps, i), RT.ReRooted(row.ptps, i));
      DisabledRoleStays(RT.Enter(row, i, x.value, env), i, env);
    }
  }

  lemma DisabledTarget(p: Ptp, prt: Port, env: RT.Env, allSynced: bool, reRooted: bool)
    requires Gone(p) && RT.FamilyOf(p.prtsm) == RT.FamDisabled
    requires RT.Target(p, prt, env, allSynced, reRooted).Some?
    ensures var q := RT.Act(p, RT.Target(p, prt, env, allSynced, reRooted).value, prt, env);
            Gone(q) && RT.FamilyOf(q.prtsm) == RT.FamDisabled
  {
  }

  lemma RolesLead(cfg: Config)
    ensures Leads(RoleTransition, cfg, AfterSelection, AfterRoles)
  {
    forall b, i: nat | Inv(b) && b.cfg == cfg && HoldsAt(b, i, AfterSelection)
      ensures HoldsAt(RunRoleTransition(b, i), i, AfterRoles)
    {
      assert EntryAt(b, i);
      RoleRunLeads(RT.Row(b.ports[i], b.tree.ptps), i, RoleEnv(b, i));
    }
  }

  lemma RoleRunLeads(row: RT.Row, i: nat, env: RT.Env)
    requires i < |row.ptps| && EntryOk(row.ptps[i]) && AfterSelection(row.prt, row.ptps[i])
    ensures var r := RT.Rest(row, i, env); |r.ptps| == |row.ptps| && AfterRoles(r.prt, r.ptps[i])
  {
    RT.RestIsFramed(row, i, env);
    RT.RestComesToRest(row, i, env);
    if row.prt.portEnabled.Off? && row.ptps[i].selected.Off? { DisabledRoleStays(row, i, env); }
  }

  // ---- Port states ----

  lemma StatesLead(cfg: Config)
    ensures Leads(StateTransition, cfg, AfterRoles, AfterStates)
  {
    forall b, i: nat | Inv(b) && b.cfg == cfg && HoldsAt(b, i, AfterRoles)
      ensures HoldsAt(RunStateTransition(b, i), i, AfterStates)
    {
      assert EntryAt(b, i);
      PM.PstsmAligns(b.tree.ptps[i], b.ports[i].deleted, i);
    }
  }

  // ---- Topology change ----

  lemma {:induction false} RestKeepsTimer(c: TC.Ctx, i: nat, env: TC.Env, port: nat)
    requires i < |c.tree.ptps| && !TC.Loops(c.tree.ptps[i], c.prt) && TimerFits(c.tree.ptps[i])
    ensures TimerFits(TC.Rest(c, i, env, port).tree.ptps[i])
    decreases TC.Measure(c.tree.ptps[i], c.prt)
  {
    var x := TC.Target(c.tree.ptps[i], c.prt);
    if x.Some? {
      TC.StepDecreases(c, i, env, port);
      TC.EnterControls(c, i, x.value, env, port);
      if x.value == TcInactive { InactiveStops(c, i, env, port); }
      RestKeepsTimer(TC.Enter(c, i, x.value, env, port), i, env, port);
    }
  }

  lemma InactiveStops(c: TC.Ctx, i: nat, env: TC.Env, port: nat)
    requires i < |c.tree.ptps|
    ensures TC.Enter(c, i, TcInactive, env, port).tree.ptps[i].tcWhile == 0
  {
    var d := TC.SetFdbFlush(TC.Put(c, i, c.tree.ptps[i].(tcsm := TcInactive)), i, env, port);
    TC.StopTcWhileFramed(d, i);
  }

  /** On a port that neither has an active role nor learns, the machine ends INACTIVE with its timer stopped. */
  lemma RestStops(c: TC.Ctx, i: nat, env: TC.Env, port: nat)
    requires i < |c.tree.ptps| && c.tree.ptps[i].mstid == 0 && TimerFits(c.tree.ptps[i])
    requires var p := c.tree.ptps[i]; !TC.ActivePort(p) && p.learn.Off? && p.learning.Off?
    ensures var q := TC.Rest(c, i, env, port).tree.ptps[i]; q.tcsm == TcInactive && q.tcWhile == 0
  {
    RestKeepsTimer(c, i, env, port);
    TC.RestComesToRest(c, i, env, port);
    TC.RestIsFramed(c, i, env, port);
  }

  lemma TopologyLeads(cfg: Config)
    ensures Leads(TopologyTc, cfg, AfterStates, Steady)
  {
    forall b, i: nat | Inv(b) && b.cfg == cfg && HoldsAt(b, i, AfterStates)
      ensures HoldsAt(RunTopology(b, i), i, Steady)
    {
      assert EntryAt(b, i);
      TopologyRunLeads(TC.Ctx(b.tree, b.ports[i], b.out), i, TC.EnvOf(b.cfg, b.tree.ptps[i]), i);
    }
  }

  lemma TopologyRunLeads(c: TC.Ctx, i: nat, env: TC.Env, port: nat)
    requires i < |c.tree.ptps| && EntryOk(c.tree.ptps[i]) && AfterStates(c.prt, c.tree.ptps[i])
    ensures var r := TC.Rest(c, i, env, port); |r.tree.ptps| == |c.tree.ptps| && Steady(r.prt, r.tree.ptps[i])
  {
    TC.RestIsFramed(c, i, env, port);
    RestKeepsTimer(c, i, env, port);
    if c.prt.portEnabled.Off? { RestStops(c, i, env, port); }
  }

  // ---- A pass ----

  lemma FirstPhasesLead(m: Machine, cfg: Config)
    requires m == Assurance || m == Receive || m == Migration || m == Detection || m == Transmission
    ensures Leads(m, cfg, Ready, Ready)
  {
    forall b, i: nat | Inv(b) && b.cfg == cfg && HoldsAt(b, i, Ready)
      ensures HoldsAt(RunOn(m, b, i), i, Ready)
    {
      RunIsConfined(m, b, i);
      ReadyStays(m, b.ports[i], b.tree.ptps[i], RunOn(m, b, i).ports[i], RunOn(m, b, i).tree.ptps[i]);
    }
  }

  lemma ReadyStays(m: Machine, prt: Port, p: Ptp, prt': Port, q: Ptp)
    requires m == Assurance || m == Receive || m == Migration || m == Detection || m == Transmission
    requires OwnChange(m, prt, p, prt', q) && Ready(prt, p)
    ensures Ready(prt', q)
  {
  }

  lemma StagesArePrivate()
    ensures Private(Ready) && Private(AfterInformation) && Private(AfterSelection) && Private(AfterRoles)
    ensures Private(AfterStates) && Private(Steady)
  {
  }

  lemma DownPlanIsSound(cfg: Config)
    ensures Sound(DownPlan(), cfg)
  {
    DownSelectionLeads(cfg);
    forall k: nat | k < PHASES
      ensures LeadsAt(DownPlan(), cfg, k)
    {
      DownPlanLeadsAt(cfg, k);
    }
  }

  lemma DownPlanLeadsAt(cfg: Config, k: nat)
    requires k < PHASES
    ensures LeadsAt(DownPlan(), cfg, k)
  {
    StagesArePrivate();
    if k < 5 {
      FirstPhasesLead(Turn(k), cfg);
    } else if k == 5 {
      InformationLeads(cfg);
    } else if k == 6 {
      RolesLead(cfg);
    } else if k == 7 {
      StatesLead(cfg);
    } else {
      TopologyLeads(cfg);
    }
  }

  /** After a pass a port without information has the Disabled role and a stopped timer, if no update was pending on it
      when it went down. */
  lemma PassSteadies(b: BState, i: nat)
    requires Inv(b) && HoldsAt(b, i, Ready)
    ensures HoldsAt(Pass(b), i, Steady)
  {
    DownPlanIsSound(b.cfg);
    PlanHoldsAtEnd(DownPlan(), b, i);
  }

  // ---- The link ----

  ghost function LinkIs(up: Flag): PortProp {
    (prt: Port, p: Ptp) => prt.portEnabled == up
  }

  ghost function LinkPlan(up: Flag): Plan {
    Plan(_ => LinkIs(up), LinkIs(up))
  }

  lemma LinkLeads(m: Machine, cfg: Config, up: Flag)
    ensures Leads(m, cfg, LinkIs(up), LinkIs(up))
  {
    forall b, i: nat | Inv(b) && b.cfg == cfg && HoldsAt(b, i, LinkIs(up))
      ensures HoldsAt(RunOn(m, b, i), i, LinkIs(up))
    {
      RunIsConfined(m, b, i);
      LinkStays(m, b.ports[i], b.tree.ptps[i], RunOn(m, b, i).ports[i], RunOn(m, b, i).tree.ptps[i]);
    }
  }

  lemma LinkStays(m: Machine, prt: Port, p: Ptp, prt': Port, q: Ptp)
    requires OwnChange(m, prt, p, prt', q)
    ensures prt'.portEnabled == prt.portEnabled
  {
  }

  /** No machine takes a port up or down. */
  lemma PassKeepsLink(b: BState, i: nat)
    requires Inv(b) && i < |b.ports|
    ensures Pass(b).ports[i].portEnabled == b.ports[i].portEnabled
  {
    var up := b.ports[i].portEnabled;
    forall k: nat | k < PHASES
      ensures LeadsAt(LinkPlan(up), b.cfg, k)
    {
      LinkLeads(Turn(k), b.cfg, up);
    }
    PlanHoldsAtEnd(LinkPlan(up), b, i);
  }

  // ---- A pending update ----

  /** An update is pending on a port that is down, and its role is `r`. */
  predicate Stuck(prt: Port, p: Ptp, r: Role) {
    prt.portEnabled.Off? && p.updtInfo.On? && p.role == r
  }

  ghost function StuckAs(r: Role): PortProp {
    (prt: Port, p: Ptp) => Stuck(prt, p, r)
  }

  ghost function StuckInformed(r: Role): PortProp {
    (prt: Port, p: Ptp) => Stuck(prt, p, r) && p.infoIs == IoDisabled
  }

  ghost function StuckPlan(r: Role): Plan {
    Plan(_ => StuckAs(r), StuckInformed(r))
  }

  /** The information machine of a port that is down only disables the information. */
  lemma {:induction false} DownRunKeepsUpdate(c: PI.Column, k: nat, cfg: Config)
    requires k < |c.ptps| && c.prt.portEnabled.Off? && (c.ptps[k].infoIs == IoDisabled ==> c.ptps[k].pism == PiDisabled)
    ensures var q := PI.Rest(c, k, cfg).ptps[k]; q.updtInfo == c.ptps[k].updtInfo && q.infoIs == IoDisabled
    decreases PI.Measure(c, k)
  {
    var x := PI.Target(c, k);
    if x.Some? {
      PI.StepDecreases(c, k, cfg);
      PI.EnterControls(c, k, x.value, cfg);
      DownRunKeepsUpdate(PI.Enter(c, k, x.value, cfg), k, cfg);
    }
  }

  lemma StuckInformationRun(b: BState, i: nat, cfg: Config, r: Role)
    requires Inv(b) && b.cfg == cfg && HoldsAt(b, i, StuckAs(r))
    ensures HoldsAt(RunOn(Information, b, i), i, StuckInformed(r))
  {
    assert EntryAt(b, i);
    PIT.RestIsFramed(ColumnOf(b, i), 0, cfg);
    DownRunKeepsUpdate(ColumnOf(b, i), 0, cfg);
  }

  lemma StuckInformationLeads(cfg: Config, r: Role)
    ensures Leads(Information, cfg, StuckAs(r), StuckInformed(r))
  {
    forall b, i: nat | Inv(b) && b.cfg == cfg && HoldsAt(b, i, StuckAs(r))
      ensures HoldsAt(RunOn(Information, b, i), i, StuckInformed(r))
    {
      StuckInformationRun(b, i, cfg, r);
    }
  }

  lemma StuckSelectionLeads(cfg: Config, r: Role)
    ensures SelectionLeads(cfg, StuckInformed(r), StuckAs(r))
  {
    forall b, i: nat | Inv(b) && b.cfg == cfg && HoldsAt(b, i, StuckInformed(r))
      ensures HoldsAt(SelectRoles(b), i, StuckAs(r))
    {
      if SelectionEnabled(b) {
        SelectedEntry(b, i);
        ClausesFAndH(b, i);
      }
    }
  }

  lemma {:induction false} UnsettledRoleStays(row: RT.Row, i: nat, env: RT.Env)
    requires i < |row.ptps| && row.ptps[i].updtInfo.On? && row.ptps[i].selectedRole != RoleMaster
    requires RT.Fits(RT.FamilyOf(row.ptps[i].prtsm), row.ptps[i].role)
    ensures RT.Rest(row, i, env).ptps[i].role == row.ptps[i].role
    decreases RT.Measure(row.ptps[i], row.prt, env)
  {
    var x := RT.RowTarget(row, i, env);
    if x.Some? {
      RT.StepDecreases(row.ptps[i], row.prt, env, RT.AllSynced(row.ptps, i), RT.ReRooted(row.ptps, i));
      UnsettledTarget(row.ptps[i], row.prt, env, RT.AllSynced(row.ptps, i), RT.ReRooted(row.ptps, i));
      UnsettledRoleStays(RT.Enter(row, i, x.value, env), i, env);
    }
  }

  lemma UnsettledTarget(p: Ptp, prt: Port, env: RT.Env, allSynced: bool, reRooted: bool)
    requires p.updtInfo.On? && RT.Fits(RT.FamilyOf(p.prtsm), p.role)
    requires RT.Target(p, prt, env, allSynced, reRooted).Some?
    ensures var q := RT.Act(p, RT.Target(p, prt, env, allSynced, reRooted).value, prt, env);
            && q.role == p.role && q.updtInfo.On? && q.selectedRole == p.selectedRole
            && RT.Fits(RT.FamilyOf(q.prtsm), q.role)
  {
  }

  lemma StuckRolesLead(cfg: Config, r: Role)
    ensures Leads(RoleTransition, cfg, StuckAs(r), StuckAs(r))
  {
    forall b, i: nat | Inv(b) && b.cfg == cfg && HoldsAt(b, i, StuckAs(r))
      ensures HoldsAt(RunRoleTransition(b, i), i, StuckAs(r))
    {
      assert EntryAt(b, i);
      StuckRoleRun(RT.Row(b.ports[i], b.tree.ptps), i, RoleEnv(b, i), r);
    }
  }

  lemma StuckRoleRun(row: RT.Row, i: nat, env: RT.Env, r: Role)
    requires i < |row.ptps| && EntryOk(row.ptps[i]) && Stuck(row.prt, row.ptps[i], r)
    ensures var s := RT.Rest(row, i, env); |s.ptps| == |row.ptps| && Stuck(s.prt, s.ptps[i], r)
  {
    RT.RestIsFramed(row, i, env);
    UnsettledRoleStays(row, i, env);
  }

  lemma StuckOtherwise(m: Machine, cfg: Config, r: Role)
    requires m != Information && m != RoleTransition
    ensures Leads(m, cfg, StuckAs(r), StuckAs(r))
  {
    forall b, i: nat | Inv(b) && b.cfg == cfg && HoldsAt(b, i, StuckAs(r))
      ensures HoldsAt(RunOn(m, b, i), i, StuckAs(r))
    {
      RunIsConfined(m, b, i);
      StuckStays(m, b.ports[i], b.tree.ptps[i], RunOn(m, b, i).ports[i], RunOn(m, b, i).tree.ptps[i], r);
    }
  }

  lemma StuckStays(m: Machine, prt: Port, p: Ptp, prt': Port, q: Ptp, r: Role)
    requires m != Information && m != RoleTransition && OwnChange(m, prt, p, prt', q) && Stuck(prt, p, r)
    ensures Stuck(prt', q, r)
  {
  }

  lemma StuckPlanIsSound(cfg: Config, r: Role)
    ensures Sound(StuckPlan(r), cfg)
  {
    StuckSelectionLeads(cfg, r);
    forall k: nat | k < PHASES
      ensures LeadsAt(StuckPlan(r), cfg, k)
    {
      StuckPlanLeadsAt(cfg, r, k);
    }
  }

  lemma StuckPlanLeadsAt(cfg: Config, r: Role, k: nat)
    requires k < PHASES
    ensures LeadsAt(StuckPlan(r), cfg, k)
  {
    StuckIsPrivate(r);
    if k == 5 {
      StuckInformationLeads(cfg, r);
    } else if k == 6 {
      StuckRolesLead(cfg, r);
    } else {
      StuckOtherwise(Turn(k), cfg, r);
    }
  }

  lemma StuckIsPrivate(r: Role)
    ensures Private(StuckAs(r)) && Private(StuckInformed(r))
  {
  }

  /** Within one pass a port that went down takes the Disabled role if and only if no update of its information was
      pending, or it had that role already. */
  lemma DownPortIsDisabledIff(b: BState, i: nat)
    requires Inv(b) && i < |b.ports| && b.ports[i].portEnabled.Off?
    requires var p := b.tree.ptps[i]; TimerFits(p) && RoleDue(p) && (p.infoIs == IoDisabled ==> Gone(p))
    ensures Pass(b).tree.ptps[i].role == RoleDisabled <==>
            b.tree.ptps[i].updtInfo.Off? || b.tree.ptps[i].role == RoleDisabled
  {
    var r := b.tree.ptps[i].role;
    if b.tree.ptps[i].updtInfo.On? {
      StuckPlanIsSound(b.cfg, r);
      PlanHoldsAtEnd(StuckPlan(r), b, i);
    } else {
      PassSteadies(b, i);
      PassKeepsLink(b, i);
    }
  }
}
