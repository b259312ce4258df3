/** What holds of one port from phase to phase of a pass. */
module PassStages {
  import opened Types
  import opened Driver
  import RT = RoleTransitions
  import PI = PortInfo
  import PIT = PortInfoTheorems
  import PM = PortMachines
  import TX = Transmit
  import TC = TopologyChange

  /** A property of a port and its entry. */
  type PortProp = (Port, Ptp) -> bool

  // ---- What a machine changes ----

  /** What the run of a machine may change in the port that it runs on. */
  ghost predicate OwnChange(m: Machine, prt: Port, p: Ptp, prt': Port, q: Ptp) {
    match m
    case Assurance => prt' == prt.(baInconsistent := prt'.baInconsistent) && q == p
    case Receive =>
      && prt' == prt.(prsm := prt'.prsm, rcvdRSTP := prt'.rcvdRSTP, rcvdSTP := prt'.rcvdSTP, operEdge := prt'.operEdge,
                      rcvdInternal := prt'.rcvdInternal, rcvdBpdu := prt'.rcvdBpdu,
                      edgeDelayWhile := prt'.edgeDelayWhile)
      && q == p.(rcvdMsg := q.rcvdMsg)
    case Migration => PM.PpmsmFrame(prt, prt') && q == p
    case Detection => prt' == prt.(bdsm := prt'.bdsm, operEdge := prt'.operEdge) && q == p
    case Transmission => TX.PortFrame(prt, prt') && q == p
    case Information => PI.PortFrame(prt, prt') && PI.OwnFrame(p, q)
    case RoleTransition => RT.PortFrame(prt, prt') && RT.OwnFrame(p, q)
    case StateTransition =>
      prt' == prt && q == p.(pstsm := q.pstsm, brState := q.brState, learning := q.learning, forwarding := q.forwarding)
    case TopologyTc => TC.PortFrame(prt, prt') && TC.OwnFrame(p, q)
  }

  /** What a machine that runs on another port may change. */
  predicate OtherChange(p: Ptp, q: Ptp) {
    q == p.(sync := q.sync, reRoot := q.reRoot, tcProp := q.tcProp)
  }

  /** Neither the parameters of the tree nor its root are any machine's business. */
  predicate TreeChange(t: Tree, u: Tree) {
    u == t.(ptps := u.ptps, timeSinceTc := u.timeSinceTc, tcCount := u.tcCount, topologyChange := u.topologyChange)
  }

  ghost predicate Confined(m: Machine, b: BState, r: BState, i: nat)
    requires i < |b.ports| == |b.tree.ptps| == |r.ports| == |r.tree.ptps|
  {
    && TreeChange(b.tree, r.tree) && OwnChange(m, b.ports[i], b.tree.ptps[i], r.ports[i], r.tree.ptps[i])
    && forall j :: 0 <= j < |b.ports| && j != i ==> ElsewhereAt(b, r, j)
  }

  ghost predicate ElsewhereAt(b: BState, r: BState, j: nat)
    requires j < |b.ports| == |b.tree.ptps| == |r.ports| == |r.tree.ptps|
  {
    r.ports[j] == b.ports[j] && OtherChange(b.tree.ptps[j], r.tree.ptps[j])
  }

  /** Changing only port `i` and its entry. */
  lemma PutConfined(m: Machine, b: BState, i: nat, prt: Port, q: Ptp, out: seq<Output>)
    requires i < |b.ports| == |b.tree.ptps| && OwnChange(m, b.ports[i], b.tree.ptps[i], prt, q)
    ensures Confined(m, b, BState(b.cfg, b.ports[i := prt], b.tree.(ptps := b.tree.ptps[i := q]), out), i)
  {
  }

  lemma RolesConfined(b: BState, i: nat)
    requires Inv(b) && i < |b.ports|
    ensures |RunRoleTransition(b, i).tree.ptps| == |b.ports| && Confined(RoleTransition, b, RunRoleTransition(b, i), i)
  {
    assert EntryAt(b, i);
    var row := RT.Row(b.ports[i], b.tree.ptps);
    RT.RestIsFramed(row, i, RoleEnv(b, i));
    var r := RT.Rest(row, i, RoleEnv(b, i));
    forall j | 0 <= j < |b.ports| && j != i
      ensures ElsewhereAt(b, RunRoleTransition(b, i), j)
    {
      assert RT.OtherFrame(row.ptps[j], r.ptps[j]);
    }
  }

  lemma TopologyConfined(b: BState, i: nat)
    requires Inv(b) && i < |b.ports|
    ensures |RunTopology(b, i).tree.ptps| == |b.ports| && Confined(TopologyTc, b, RunTopology(b, i), i)
  {
    assert EntryAt(b, i);
    var c := TC.Ctx(b.tree, b.ports[i], b.out);
    TC.RestIsFramed(c, i, TC.EnvOf(b.cfg, b.tree.ptps[i]), i);
    var r := TC.Rest(c, i, TC.EnvOf(b.cfg, b.tree.ptps[i]), i);
    forall j | 0 <= j < |b.ports| && j != i
      ensures ElsewhereAt(b, RunTopology(b, i), j)
    {
      assert r.tree.ptps[j] == c.tree.ptps[j].(tcProp := r.tree.ptps[j].tcProp);
    }
  }

  lemma SmallRunsConfined(m: Machine, b: BState, i: nat)
    requires Inv(b) && i < |b.ports| && (m == Assurance || m == Migration || m == Detection)
    ensures var r := RunOn(m, b, i); |r.ports| == |b.ports| == |r.tree.ptps| && Confined(m, b, r, i)
  {
    var prt, p := b.ports[i], b.tree.ptps[i];
    MigrationFrame(prt, b.cfg);
    assert b.ports[i := prt] == b.ports && b.tree.ptps[i := p] == b.tree.ptps;
    PutConfined(m, b, i, RunOn(m, b, i).ports[i], p, b.out);
  }

  lemma ColumnRunsConfined(m: Machine, b: BState, i: nat)
    requires Inv(b) && i < |b.ports| && (m == Receive || m == Information)
    ensures var r := RunOn(m, b, i); |r.ports| == |b.ports| == |r.tree.ptps| && Confined(m, b, r, i)
  {
    assert EntryAt(b, i);
    var c := ColumnOf(b, i);
    PIT.RestIsFramed(c, 0, b.cfg);
    var r := if m == Receive then PM.PrsmRun(c, b.cfg) else PI.Rest(c, 0, b.cfg);
    assert m == Receive ==> r.ptps[0] == b.tree.ptps[i].(rcvdMsg := r.ptps[0].rcvdMsg);
    PutConfined(m, b, i, r.prt, r.ptps[0], b.out);
  }

  lemma SendingRunsConfined(m: Machine, b: BState, i: nat)
    requires Inv(b) && i < |b.ports| && (m == Transmission || m == StateTransition)
    ensures var r := RunOn(m, b, i); |r.ports| == |b.ports| == |r.tree.ptps| && Confined(m, b, r, i)
  {
    assert EntryAt(b, i);
    var prt, p := b.ports[i], b.tree.ptps[i];
    assert b.ports[i := prt] == b.ports && b.tree.ptps[i := p] == b.tree.ptps;
    if m == Transmission {
      TX.RestComesToRest(ColumnOf(b, i), b.cfg, i);
      PutConfined(m, b, i, TX.Rest(ColumnOf(b, i), b.cfg, i).0, p, RunTransmission(b, i).out);
    } else {
      PM.PstsmAligns(p, prt.deleted, i);
      PutConfined(m, b, i, prt, PM.PstsmRun(p, prt.deleted, i).0, RunStateTransition(b, i).out);
    }
  }

  /** A run is confined to the variables of its machine. */
  lemma RunIsConfined(m: Machine, b: BState, i: nat)
    requires Inv(b) && i < |b.ports|
    ensures var r := RunOn(m, b, i); |r.ports| == |b.ports| == |r.tree.ptps| && Confined(m, b, r, i)
  {
    match m
    case RoleTransition => RolesConfined(b, i);
    case TopologyTc => TopologyConfined(b, i);
    case Assurance | Migration | Detection => SmallRunsConfined(m, b, i);
    case Receive | Information => ColumnRunsConfined(m, b, i);
    case Transmission | StateTransition => SendingRunsConfined(m, b, i);
  }

  lemma {:induction false} MigrationFrame(prt: Port, cfg: Config)
    ensures PM.PpmsmFrame(prt, PM.PpmsmRun(prt, cfg))
    decreases PM.PpmsmWork(prt)
  {
    match PM.PpmsmTarget(prt, cfg)
    case None =>
    case Some(x) => if x != CheckingRstp { MigrationFrame(PM.PpmsmEnter(prt, x, cfg), cfg); }
  }

  // ---- From phase to phase ----

  ghost predicate HoldsAt(b: BState, i: nat, p: PortProp) {
    i < |b.ports| == |b.tree.ptps| && p(b.ports[i], b.tree.ptps[i])
  }

  /** The property does not look at what other ports' machines change. */
  ghost predicate Private(p: PortProp) {
    forall prt: Port, q, q' :: OtherChange(q, q') && p(prt, q) ==> p(prt, q')
  }

  /** On the port that it works on the routine leads from one property to the next. */
  ghost predicate LeadsBy(f: (BState, nat) -> BState, cfg: Config, p: PortProp, q: PortProp) {
    forall b, i: nat :: Inv(b) && b.cfg == cfg && HoldsAt(b, i, p) ==> HoldsAt(f(b, i), i, q)
  }

  /** The routine does not take the property from other ports. */
  ghost predicate Spares(f: (BState, nat) -> BState, p: PortProp) {
    forall b, j: nat, i: nat :: Inv(b) && j < |b.ports| && i != j && HoldsAt(b, i, p) ==> HoldsAt(f(b, j), i, p)
  }

  /** A routine on all ports leads every port from one property to the next. */
  lemma {:induction false} AllLead(f: (BState, nat) -> BState, b: BState, n: nat, i: nat, p: PortProp, q: PortProp)
    requires Inv(b) && n <= |b.ports| && HoldsAt(b, i, p) && Harmless(f)
    requires Spares(f, p) && Spares(f, q) && LeadsBy(f, b.cfg, p, q)
    ensures HoldsAt(InTurn(f, b, n), i, if i < n then q else p)
  {
    if n > 0 {
      AllLead(f, b, n - 1, i, p, q);
      InTurnKeepsInv(f, b, n - 1);
    }
  }

  /** Machine `m` leads its own port from one property to the next. */
  ghost predicate Leads(m: Machine, cfg: Config, p: PortProp, q: PortProp) {
    forall b, i: nat :: Inv(b) && b.cfg == cfg && HoldsAt(b, i, p) ==> HoldsAt(RunOn(m, b, i), i, q)
  }

  ghost predicate SelectionLeads(cfg: Config, p: PortProp, q: PortProp) {
    forall b, i: nat :: Inv(b) && b.cfg == cfg && HoldsAt(b, i, p) ==> HoldsAt(SelectRoles(b), i, q)
  }

  lemma MachinesSpare(m: Machine, p: PortProp)
    requires Private(p)
    ensures Spares(Step(m), p)
  {
    forall b, j: nat, i: nat | Inv(b) && j < |b.ports| && i != j && HoldsAt(b, i, p)
      ensures HoldsAt(Step(m)(b, j), i, p)
    {
      RunIsConfined(m, b, j);
      assert ElsewhereAt(b, RunOn(m, b, j), i);
    }
  }

  lemma StepLeads(m: Machine, cfg: Config, p: PortProp, q: PortProp)
    requires Leads(m, cfg, p, q)
    ensures LeadsBy(Step(m), cfg, p, q)
  {
    forall b, i: nat | Inv(b) && b.cfg == cfg && HoldsAt(b, i, p)
      ensures HoldsAt(Step(m)(b, i), i, q)
    {
      assert Step(m)(b, i) == RunOn(m, b, i);
    }
  }

  /** A whole phase leads every port from one property to the next. */
  lemma PhaseLeads(m: Machine, b: BState, i: nat, p: PortProp, q: PortProp)
    requires Inv(b) && HoldsAt(b, i, p) && Private(p) && Private(q) && Leads(m, b.cfg, p, q)
    ensures HoldsAt(Whole(m, b), i, q)
  {
    MachinesSpare(m, p);
    MachinesSpare(m, q);
    StepLeads(m, b.cfg, p, q);
    StepIsHarmless(m);
    AllLead(Step(m), b, |b.ports|, i, p, q);
  }

  /** The ports whose turn is still to come keep the first property. */
  lemma BeforeItsTurn(m: Machine, b: BState, i: nat, p: PortProp, q: PortProp)
    requires Inv(b) && HoldsAt(b, i, p) && Private(p) && Private(q) && Leads(m, b.cfg, p, q)
    ensures HoldsAt(InTurn(Step(m), b, i), i, p)
  {
    MachinesSpare(m, p);
    MachinesSpare(m, q);
    StepLeads(m, b.cfg, p, q);
    StepIsHarmless(m);
    AllLead(Step(m), b, i, i, p, q);
  }

  /** A property of the tree that no machine touches. */
  ghost predicate TreeKept(f: (BState, nat) -> BState) {
    forall b, i: nat :: Inv(b) && i < |b.ports| ==> TreeChange(b.tree, f(b, i).tree)
  }

  lemma {:induction false} TreeKeptByAll(f: (BState, nat) -> BState, b: BState, n: nat)
    requires Inv(b) && n <= |b.ports| && Harmless(f) && TreeKept(f)
    ensures TreeChange(b.tree, InTurn(f, b, n).tree)
  {
    if n > 0 {
      TreeKeptByAll(f, b, n - 1);
      InTurnKeepsInv(f, b, n - 1);
    }
  }

  lemma PhaseKeepsTree(m: Machine, b: BState)
    requires Inv(b)
    ensures TreeChange(b.tree, Whole(m, b).tree)
  {
    StepIsHarmless(m);
    forall c, i: nat | Inv(c) && i < |c.ports|
      ensures TreeChange(c.tree, Step(m)(c, i).tree)
    {
      RunIsConfined(m, c, i);
    }
    TreeKeptByAll(Step(m), b, |b.ports|);
  }

  // ---- Through a pass ----

  /** What holds of a port when the pass comes to machine `k`; `at(PHASES)` is what holds at the end, and
      `beforeSelection` what holds before role selection. */
  datatype Plan = Plan(at: nat -> PortProp, beforeSelection: PortProp)

  ghost function StartOf(plan: Plan, k: nat): PortProp {
    if k == 6 then plan.beforeSelection else plan.at(k)
  }

  ghost predicate LeadsAt(plan: Plan, cfg: Config, k: nat)
    requires k < PHASES
  {
    && Private(plan.at(k)) && Private(StartOf(plan, k + 1))
    && Leads(Turn(k), cfg, plan.at(k), StartOf(plan, k + 1))
  }

  ghost predicate Sound(plan: Plan, cfg: Config) {
    && SelectionLeads(cfg, plan.beforeSelection, plan.at(6))
    && forall k: nat :: k < PHASES ==> LeadsAt(plan, cfg, k)
  }

  /** A sound plan holds of every port through a whole pass. */
  lemma {:induction false} PlanHolds(plan: Plan, b: BState, i: nat, k: nat)
    requires Inv(b) && Sound(plan, b.cfg) && HoldsAt(b, i, plan.at(0)) && k <= PHASES
    ensures HoldsAt(Reached(b, k), i, StartOf(plan, k))
    ensures k < PHASES ==> HoldsAt(PhaseStart(b, k), i, plan.at(k))
    decreases k
  {
    if k > 0 {
      PlanHolds(plan, b, i, k - 1);
      PlanStep(plan, b, i, k - 1);
    } else {
      NothingRun(b);
    }
    if k < PHASES { SelectionStep(plan, b, i, k); }
  }

  lemma NothingRun(b: BState)
    requires Inv(b)
    ensures Reached(b, 0) == b
  {
  }

  lemma PlanStep(plan: Plan, b: BState, i: nat, k: nat)
    requires Inv(b) && Sound(plan, b.cfg) && k < PHASES && HoldsAt(PhaseStart(b, k), i, plan.at(k))
    ensures HoldsAt(Reached(b, k + 1), i, StartOf(plan, k + 1))
  {
    assert LeadsAt(plan, b.cfg, k);
    NextPhase(b, k);
    PhaseLeads(Turn(k), PhaseStart(b, k), i, plan.at(k), StartOf(plan, k + 1));
  }

  lemma SelectionStep(plan: Plan, b: BState, i: nat, k: nat)
    requires Inv(b) && Sound(plan, b.cfg) && k < PHASES && HoldsAt(Reached(b, k), i, StartOf(plan, k))
    ensures HoldsAt(PhaseStart(b, k), i, plan.at(k))
  {
  }

  lemma PlanHoldsAtEnd(plan: Plan, b: BState, i: nat)
    requires Inv(b) && Sound(plan, b.cfg) && HoldsAt(b, i, plan.at(0))
    ensures HoldsAt(Pass(b), i, plan.at(PHASES))
  {
    PlanHolds(plan, b, i, PHASES);
  }
}
