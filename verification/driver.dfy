/** The state machines of a bridge that has only the CIST, run together: `__br_state_machines_run`. */
module Driver {
  import opened Types
  import RT = RoleTransitions
  import PI = PortInfo
  import PIT = PortInfoTheorems
  import PM = PortMachines
  import TX = Transmit
  import TC = TopologyChange
  import Roles
  import RoleTheorems

  /** The state of the bridge and the trace of its outputs. */
  datatype BState = BState(cfg: Config, ports: seq<Port>, tree: Tree, out: seq<Output>)

  /** The per-port machines, in the order in which a pass runs them. Role selection, which works on the
      whole tree, comes between Information and RoleTransition. */
  datatype Machine =
    | Assurance | Receive | Migration | Detection | Transmission | Information
    | RoleTransition | StateTransition | TopologyTc

  // ---- The invariant ----

  predicate EntryOk(p: Ptp) {
    && p.mstid == 0 && p.selectedRole != RoleMaster && RT.FamilyOf(p.prtsm) != RT.FamMaster
    && RT.PortInv(p) && PIT.HelloOk(p) && PIT.OriginFits(p) && PM.StateFits(p)
  }

  predicate EntryAt(b: BState, i: nat)
    requires i < |b.tree.ptps|
  {
    EntryOk(b.tree.ptps[i])
  }

  ghost predicate Inv(b: BState) {
    && |b.tree.ptps| == |b.ports| && b.tree.mstid == 0 && b.tree.bridgeTimes.hello > 0 && b.cfg.migrateTime > 0
    && (forall i :: 0 <= i < |b.ports| ==> EntryAt(b, i))
    && (forall i :: 0 <= i < |b.ports| ==> b.ports[i].txCount <= b.cfg.txHoldCount)
  }

  function ColumnOf(b: BState, i: nat): PI.Column
    requires i < |b.ports| == |b.tree.ptps|
  {
    PI.Column(b.ports[i], [b.tree.ptps[i]])
  }

  function PutColumn(b: BState, i: nat, c: PI.Column): (r: BState)
    requires i < |b.ports| == |b.tree.ptps| && |c.ptps| == 1
    ensures |r.ports| == |b.ports| == |r.tree.ptps|
  {
    b.(ports := b.ports[i := c.prt], tree := b.tree.(ptps := b.tree.ptps[i := c.ptps[0]]))
  }

  // ---- One machine on one port ----

  predicate AssuranceExpired(prt: Port) {
    prt.portEnabled.On? && TX.AssurancePort(prt) && prt.brAssuRcvdInfoWhile == 0 && prt.baInconsistent.Off?
  }

  function RoleEnv(b: BState, i: nat): RT.Env
    requires i < |b.ports| == |b.tree.ptps|
  {
    RT.EnvOf(b.cfg, b.tree.ptps[i], b.ports[i], true)
  }

  /** What a dry run of the machine reports. */
  predicate Enabled(m: Machine, b: BState, i: nat) {
    i < |b.ports| == |b.tree.ptps| &&
    match m
    case Assurance => AssuranceExpired(b.ports[i])
    case Receive => PM.PrsmDry(ColumnOf(b, i), b.cfg)
    case Migration => PM.PpmsmTarget(b.ports[i], b.cfg).Some?
    case Detection => PM.BdsmTarget(b.ports[i], b.tree.ptps[i]).Some?
    case Transmission => TX.Dry(ColumnOf(b, i), b.cfg)
    case Information => PI.Target(ColumnOf(b, i), 0).Some?
    case RoleTransition => RT.RowTarget(RT.Row(b.ports[i], b.tree.ptps), i, RoleEnv(b, i)).Some?
    case StateTransition => PM.PstsmTarget(b.tree.ptps[i]).Some?
    case TopologyTc => TC.Dry(b.tree.ptps[i], b.ports[i])
  }

  ghost function RunTransmission(b: BState, i: nat): BState
    requires Inv(b) && i < |b.ports|
  {
    assert EntryAt(b, i);
    var r := TX.Rest(ColumnOf(b, i), b.cfg, i);
    b.(ports := b.ports[i := r.0], out := b.out + r.1)
  }

  ghost function RunRoleTransition(b: BState, i: nat): BState
    requires Inv(b) && i < |b.ports|
  {
    assert EntryAt(b, i);
    var r := RT.Rest(RT.Row(b.ports[i], b.tree.ptps), i, RoleEnv(b, i));
    b.(ports := b.ports[i := r.prt], tree := b.tree.(ptps := r.ptps))
  }

  ghost function RunStateTransition(b: BState, i: nat): BState
    requires Inv(b) && i < |b.ports|
  {
    var r := PM.PstsmRun(b.tree.ptps[i], b.ports[i].deleted, i);
    b.(tree := b.tree.(ptps := b.tree.ptps[i := r.0]), out := b.out + r.1)
  }

  ghost function RunTopology(b: BState, i: nat): BState
    requires Inv(b) && i < |b.ports|
  {
    assert EntryAt(b, i);
    var r := TC.Rest(TC.Ctx(b.tree, b.ports[i], b.out), i, TC.EnvOf(b.cfg, b.tree.ptps[i]), i);
    BState(b.cfg, b.ports[i := r.prt], r.tree, r.out)
  }

  /** The actual run of the machine on a port of a good bridge. */
  ghost function RunOn(m: Machine, b: BState, i: nat): BState {
    if !Inv(b) || i >= |b.ports| then b
    else
      var prt := b.ports[i];
      match m
      case Assurance => if AssuranceExpired(prt) then b.(ports := b.ports[i := prt.(baInconsistent := On)]) else b
      case Receive => PutColumn(b, i, PM.PrsmRun(ColumnOf(b, i), b.cfg))
      case Migration => b.(ports := b.ports[i := PM.PpmsmRun(prt, b.cfg)])
      case Detection => b.(ports := b.ports[i := PM.BdsmRun(prt, b.tree.ptps[i])])
      case Transmission => RunTransmission(b, i)
      case Information => PutColumn(b, i, PI.Rest(ColumnOf(b, i), 0, b.cfg))
      case RoleTransition => RunRoleTransition(b, i)
      case StateTransition => RunStateTransition(b, i)
      case TopologyTc => RunTopology(b, i)
  }

  /** The dry run of a machine reports a change if and only if its actual run changes a variable of some port or tree,
      or emits something. */
  lemma DryIffChange(m: Machine, b: BState, i: nat)
    requires Inv(b) && i < |b.ports|
    ensures Enabled(m, b, i) <==> RunOn(m, b, i) != b
  {
    assert EntryAt(b, i);
    match m
    case Receive =>
      PM.PrsmDryIffChange(ColumnOf(b, i), b.cfg);
      PutIsChange(b, i, PM.PrsmRun(ColumnOf(b, i), b.cfg));
    case Migration => PM.PpmsmDryIffChange(b.ports[i], b.cfg);
    case Information =>
      PIT.DryIffChange(ColumnOf(b, i), 0, b.cfg);
      PutIsChange(b, i, PI.Rest(ColumnOf(b, i), 0, b.cfg));
    case Transmission => TransmissionDryIffChange(b, i);
    case StateTransition => StateDryIffChange(b, i);
    case RoleTransition => RoleDryIffChange(b, i);
    case TopologyTc => TopologyDryIffChange(b, i);
    case Detection =>
    case Assurance =>
  }

  lemma PutIsChange(b: BState, i: nat, c: PI.Column)
    requires i < |b.ports| == |b.tree.ptps| && |c.ptps| == 1
    ensures PutColumn(b, i, c) != b <==> c != ColumnOf(b, i)
  {
    var r := PutColumn(b, i, c);
    assert r.ports[i] == c.prt && r.tree.ptps[i] == c.ptps[0];
    if c == ColumnOf(b, i) {
      assert r.ports == b.ports && r.tree.ptps == b.tree.ptps;
    } else {
      assert c.ptps == [c.ptps[0]];
    }
  }

  lemma TransmissionDryIffChange(b: BState, i: nat)
    requires Inv(b) && i < |b.ports|
    ensures Enabled(Transmission, b, i) <==> RunTransmission(b, i) != b
  {
    assert EntryAt(b, i);
    TX.DryIffChange(ColumnOf(b, i), b.cfg, i);
    var r := TX.Rest(ColumnOf(b, i), b.cfg, i);
    assert RunTransmission(b, i).ports[i] == r.0 && |RunTransmission(b, i).out| == |b.out| + |r.1|;
  }

  lemma StateDryIffChange(b: BState, i: nat)
    requires Inv(b) && i < |b.ports|
    ensures Enabled(StateTransition, b, i) <==> RunStateTransition(b, i) != b
  {
    PM.PstsmDryIffChange(b.tree.ptps[i], b.ports[i].deleted, i);
    var r := PM.PstsmRun(b.tree.ptps[i], b.ports[i].deleted, i);
    assert RunStateTransition(b, i).tree.ptps[i] == r.0 && |RunStateTransition(b, i).out| == |b.out| + |r.1|;
  }

  lemma RoleDryIffChange(b: BState, i: nat)
    requires Inv(b) && i < |b.ports|
    ensures Enabled(RoleTransition, b, i) <==> RunRoleTransition(b, i) != b
  {
    assert EntryAt(b, i);
    RT.DryIffChange(RT.Row(b.ports[i], b.tree.ptps), i, RoleEnv(b, i));
    var r := RT.Rest(RT.Row(b.ports[i], b.tree.ptps), i, RoleEnv(b, i));
    assert RunRoleTransition(b, i).ports[i] == r.prt && RunRoleTransition(b, i).tree.ptps == r.ptps;
  }

  lemma TopologyDryIffChange(b: BState, i: nat)
    requires Inv(b) && i < |b.ports|
    ensures Enabled(TopologyTc, b, i) <==> RunTopology(b, i) != b
  {
    assert EntryAt(b, i);
    var c := TC.Ctx(b.tree, b.ports[i], b.out);
    TC.DryIffChange(c, i, TC.EnvOf(b.cfg, b.tree.ptps[i]), i);
    var r := TC.Rest(c, i, TC.EnvOf(b.cfg, b.tree.ptps[i]), i);
    assert RunTopology(b, i).ports[i] == r.prt;
  }

  // ---- Every machine keeps the invariant ----

  /** Changing one port and its entry to good ones keeps the invariant. */
  lemma PutKeepsInv(b: BState, i: nat, prt: Port, p: Ptp, out: seq<Output>)
    requires Inv(b) && i < |b.ports| && EntryOk(p) && prt.txCount <= b.cfg.txHoldCount
    ensures Inv(BState(b.cfg, b.ports[i := prt], b.tree.(ptps := b.tree.ptps[i := p]), out))
  {
    var r := BState(b.cfg, b.ports[i := prt], b.tree.(ptps := b.tree.ptps[i := p]), out);
    forall j | 0 <= j < |b.ports|
      ensures EntryAt(r, j)
    {
      assert EntryAt(b, j);
    }
  }

  lemma PortKeepsInv(b: BState, i: nat, prt: Port, out: seq<Output>)
    requires Inv(b) && i < |b.ports| && prt.txCount <= b.cfg.txHoldCount
    ensures Inv(b.(ports := b.ports[i := prt], out := out))
  {
    var r := b.(ports := b.ports[i := prt], out := out);
    forall j | 0 <= j < |b.ports|
      ensures EntryAt(r, j)
    {
      assert EntryAt(b, j);
    }
  }

  lemma ReceiveKeepsInv(b: BState, i: nat)
    requires Inv(b) && i < |b.ports|
    ensures Inv(PutColumn(b, i, PM.PrsmRun(ColumnOf(b, i), b.cfg)))
  {
    assert EntryAt(b, i);
    var r := PM.PrsmRun(ColumnOf(b, i), b.cfg);
    assert r.ptps[0] == b.tree.ptps[i].(rcvdMsg := r.ptps[0].rcvdMsg);
    PutKeepsInv(b, i, r.prt, r.ptps[0], b.out);
  }

  lemma InformationKeepsInv(b: BState, i: nat)
    requires Inv(b) && i < |b.ports|
    ensures Inv(PutColumn(b, i, PI.Rest(ColumnOf(b, i), 0, b.cfg)))
  {
    assert EntryAt(b, i);
    var c := ColumnOf(b, i);
    PIT.RestComesToRest(c, 0, b.cfg);
    PIT.RestIsFramed(c, 0, b.cfg);
    PIT.RestKeepsHello(c, 0, b.cfg);
    var r := PI.Rest(c, 0, b.cfg);
    PutKeepsInv(b, i, r.prt, r.ptps[0], b.out);
  }

  lemma StateTransitionKeepsInv(b: BState, i: nat)
    requires Inv(b) && i < |b.ports|
    ensures Inv(RunStateTransition(b, i))
  {
    assert EntryAt(b, i);
    PM.PstsmAligns(b.tree.ptps[i], b.ports[i].deleted, i);
    var r := PM.PstsmRun(b.tree.ptps[i], b.ports[i].deleted, i);
    PutKeepsInv(b, i, b.ports[i], r.0, b.out + r.1);
    assert b.ports[i := b.ports[i]] == b.ports;
  }

  lemma RoleFramesKeepEntry(p: Ptp, q: Ptp)
    requires EntryOk(p)
    ensures RT.OtherFrame(p, q) ==> EntryOk(q)
    ensures RT.OwnFrame(p, q) && RT.PortInv(q) && RT.Resting(q.prtsm) ==> EntryOk(q)
  {
  }

  lemma FramedRowKeepsInv(b: BState, r: RT.Row, i: nat)
    requires Inv(b) && i < |b.ports| && RT.Framed(RT.Row(b.ports[i], b.tree.ptps), r, i)
    requires RT.PortInv(r.ptps[i]) && RT.Resting(r.ptps[i].prtsm)
    ensures Inv(b.(ports := b.ports[i := r.prt], tree := b.tree.(ptps := r.ptps)))
  {
    var s := b.(ports := b.ports[i := r.prt], tree := b.tree.(ptps := r.ptps));
    forall j | 0 <= j < |b.ports|
      ensures EntryAt(s, j)
    {
      assert EntryAt(b, j);
      RoleFramesKeepEntry(b.tree.ptps[j], r.ptps[j]);
    }
  }

  lemma RoleTransitionKeepsInv(b: BState, i: nat)
    requires Inv(b) && i < |b.ports|
    ensures Inv(RunRoleTransition(b, i))
  {
    var row, env := RT.Row(b.ports[i], b.tree.ptps), RoleEnv(b, i);
    assert EntryAt(b, i);
    RT.RestKeepsInv(row, i, env);
    RT.RestComesToRest(row, i, env);
    RT.RestIsFramed(row, i, env);
    FramedRowKeepsInv(b, RT.Rest(row, i, env), i);
  }

  lemma FramedTcKeepsInv(b: BState, r: TC.Ctx, i: nat)
    requires Inv(b) && i < |b.ports| && TC.Framed(TC.Ctx(b.tree, b.ports[i], b.out), r, i)
    ensures Inv(BState(b.cfg, b.ports[i := r.prt], r.tree, r.out))
  {
    var s := BState(b.cfg, b.ports[i := r.prt], r.tree, r.out);
    forall j | 0 <= j < |b.ports|
      ensures EntryAt(s, j)
    {
      assert EntryAt(b, j);
    }
  }

  lemma TopologyKeepsInv(b: BState, i: nat)
    requires Inv(b) && i < |b.ports|
    ensures Inv(RunTopology(b, i))
  {
    assert EntryAt(b, i);
    var c := TC.Ctx(b.tree, b.ports[i], b.out);
    TC.RestIsFramed(c, i, TC.EnvOf(b.cfg, b.tree.ptps[i]), i);
    FramedTcKeepsInv(b, TC.Rest(c, i, TC.EnvOf(b.cfg, b.tree.ptps[i]), i), i);
  }

  lemma TransmissionKeepsInv(b: BState, i: nat)
    requires Inv(b) && i < |b.ports|
    ensures Inv(RunTransmission(b, i))
  {
    assert EntryAt(b, i);
    TX.RestCountsTransmissions(ColumnOf(b, i), b.cfg, i);
    var r := TX.Rest(ColumnOf(b, i), b.cfg, i);
    PortKeepsInv(b, i, r.0, b.out + r.1);
  }

  lemma {:induction false} MigrationKeepsCount(prt: Port, cfg: Config)
    ensures PM.PpmsmRun(prt, cfg).txCount == prt.txCount
    decreases PM.PpmsmWork(prt)
  {
    match PM.PpmsmTarget(prt, cfg)
    case None =>
    case Some(x) => if x != CheckingRstp { MigrationKeepsCount(PM.PpmsmEnter(prt, x, cfg), cfg); }
  }

  /** Whichever machine runs on whichever port, the invariant is kept. */
  lemma RunKeepsInv(m: Machine, b: BState, i: nat)
    requires Inv(b) && i < |b.ports|
    ensures var r := RunOn(m, b, i); Inv(r) && |r.ports| == |b.ports| && r.cfg == b.cfg
  {
    match m
    case RoleTransition => RoleTransitionKeepsInv(b, i);
    case TopologyTc => TopologyKeepsInv(b, i);
    case Receive => ReceiveKeepsInv(b, i);
    case Information => InformationKeepsInv(b, i);
    case StateTransition => StateTransitionKeepsInv(b, i);
    case Transmission => TransmissionKeepsInv(b, i);
    case Migration =>
      MigrationKeepsCount(b.ports[i], b.cfg);
      PortKeepsInv(b, i, PM.PpmsmRun(b.ports[i], b.cfg), b.out);
    case Detection => PortKeepsInv(b, i, PM.BdsmRun(b.ports[i], b.tree.ptps[i]), b.out);
    case Assurance => PortKeepsInv(b, i, b.ports[i].(baInconsistent := On), b.out);
  }

  // ---- Role selection for the tree ----

  predicate SelectionEnabled(b: BState) {
    b.tree.prssm == InitTree || exists i :: 0 <= i < |b.tree.ptps| && b.tree.ptps[i].reselect.On?
  }

  /** `clearReselectTree` and the entry of ROLE_SELECTION. */
  function ClearedTree(tree: Tree): Tree {
    tree.(prssm := RoleSelection,
          ptps := seq(|tree.ptps|, i requires 0 <= i < |tree.ptps| => tree.ptps[i].(reselect := Off)))
  }

  /** `setSelectedTree`. */
  function SelectedTree(tree: Tree): Tree {
    tree.(ptps := seq(|tree.ptps|, i requires 0 <= i < |tree.ptps| => tree.ptps[i].(selected := On)))
  }

  /** ROLE_SELECTION: clear the requests, assign the roles, mark them as selected. */
  function Selected(b: BState): (r: BState)
    requires |b.ports| == |b.tree.ptps|
    ensures |r.ports| == |b.ports| == |r.tree.ptps|
  {
    var t := ClearedTree(b.tree);
    b.(tree := SelectedTree(Roles.UpdatedTree(t, b.ports, t.ptps)))
  }

  function SelectRoles(b: BState): (r: BState)
    ensures |b.ports| == |b.tree.ptps| ==> |r.ports| == |b.ports| == |r.tree.ptps|
  {
    if |b.ports| == |b.tree.ptps| && SelectionEnabled(b) then Selected(b) else b
  }

  /** The dry run of role selection is exact too. */
  lemma SelectionDryIffChange(b: BState)
    requires |b.ports| == |b.tree.ptps| && b.tree.mstid == 0
    ensures SelectionEnabled(b) <==> SelectRoles(b) != b
  {
    if SelectionEnabled(b) && b.tree.prssm != InitTree {
      var i :| 0 <= i < |b.tree.ptps| && b.tree.ptps[i].reselect.On?;
      SelectedEntry(b, i);
    }
  }

  /** The entry of port `i` after selection. */
  lemma SelectedEntry(b: BState, i: nat)
    requires |b.ports| == |b.tree.ptps| && b.tree.mstid == 0 && i < |b.ports|
    ensures var p, q := b.tree.ptps[i], Selected(b).tree.ptps[i];
            && q == p.(reselect := Off, selected := On, selectedRole := q.selectedRole, updtInfo := q.updtInfo,
                       designatedPriority := q.designatedPriority, designatedTimes := q.designatedTimes)
            && q.selectedRole != RoleMaster && q.designatedTimes.hello == p.portTimes.hello
  {
    var t0 := ClearedTree(b.tree);
    var row := t0.ptps;
    RoleTheorems.NoMasterOnCist(t0, b.ports, row, i);
    var c := Roles.RootOf(t0, b.ports);
    var times := Roles.NextRootTimes(t0, b.ports, c.index);
    Roles.RoleKeepsRest(Roles.WithDesignated(row[i], b.ports[i], c.vec, times, t0.bridgeId, true), b.ports[i], row[i],
                        c.index == Some(i), t0.bridgeId, true);
  }

  lemma SelectionFrameKeepsEntry(p: Ptp, q: Ptp)
    requires EntryOk(p) && q.selectedRole != RoleMaster && q.designatedTimes.hello == p.portTimes.hello
    requires q == p.(reselect := Off, selected := On, selectedRole := q.selectedRole, updtInfo := q.updtInfo,
                     designatedPriority := q.designatedPriority, designatedTimes := q.designatedTimes)
    ensures EntryOk(q)
  {
  }

  lemma SelectedEntryOk(b: BState, i: nat)
    requires Inv(b) && i < |b.ports|
    ensures EntryOk(Selected(b).tree.ptps[i])
  {
    assert EntryAt(b, i);
    SelectedEntry(b, i);
    SelectionFrameKeepsEntry(b.tree.ptps[i], Selected(b).tree.ptps[i]);
  }

  lemma SelectionKeepsInv(b: BState)
    requires Inv(b)
    ensures Inv(SelectRoles(b)) && SelectRoles(b).cfg == b.cfg
  {
    if SelectionEnabled(b) {
      var r := Selected(b);
      assert r.ports == b.ports && r.tree.mstid == 0 && r.tree.bridgeTimes == b.tree.bridgeTimes;
      forall i | 0 <= i < |b.ports|
        ensures EntryAt(r, i)
      {
        SelectedEntryOk(b, i);
      }
    }
  }

  // ---- A pass ----

  /** A routine applied to the first `n` ports in turn. */
  ghost function InTurn(f: (BState, nat) -> BState, b: BState, n: nat): BState {
    if n == 0 then b else f(InTurn(f, b, n - 1), n - 1)
  }

  /** The routine keeps the invariant on every port of every good state. */
  ghost predicate Harmless(f: (BState, nat) -> BState) {
    forall b, i: nat :: Inv(b) && i < |b.ports| ==> Inv(f(b, i)) && |f(b, i).ports| == |b.ports| && f(b, i).cfg == b.cfg
  }

  lemma {:induction false} InTurnKeepsInv(f: (BState, nat) -> BState, b: BState, n: nat)
    requires Inv(b) && n <= |b.ports| && Harmless(f)
    ensures var r := InTurn(f, b, n); Inv(r) && |r.ports| == |b.ports| && r.cfg == b.cfg
  {
    if n > 0 {
      InTurnKeepsInv(f, b, n - 1);
    }
  }

  /** A machine as a routine on ports. */
  ghost function Step(m: Machine): (BState, nat) -> BState {
    (b: BState, i: nat) => RunOn(m, b, i)
  }

  lemma StepIsHarmless(m: Machine)
    ensures Harmless(Step(m))
  {
    forall b, i: nat | Inv(b) && i < |b.ports|
      ensures var r := Step(m)(b, i); Inv(r) && |r.ports| == |b.ports| && r.cfg == b.cfg
    {
      RunKeepsInv(m, b, i);
    }
  }

  lemma WholeKeepsInv(m: Machine, b: BState)
    ensures Inv(b) ==> var r := InTurn(Step(m), b, |b.ports|); Inv(r) && |r.ports| == |b.ports| && r.cfg == b.cfg
  {
    StepIsHarmless(m);
    if Inv(b) { InTurnKeepsInv(Step(m), b, |b.ports|); }
  }

  /** Machine `m` on all ports in turn. */
  ghost function Whole(m: Machine, b: BState): (r: BState)
    ensures Inv(b) ==> Inv(r) && |r.ports| == |b.ports| && r.cfg == b.cfg
  {
    WholeKeepsInv(m, b);
    InTurn(Step(m), b, |b.ports|)
  }

  const PHASES: nat := 9

  /** The order of the machines in a pass. */
  function Turn(k: nat): Machine
    requires k < PHASES
  {
    match k
    case 0 => Assurance
    case 1 => Receive
    case 2 => Migration
    case 3 => Detection
    case 4 => Transmission
    case 5 => Information
    case 6 => RoleTransition
    case 7 => StateTransition
    case _ => TopologyTc
  }

  /** Role selection comes before the role transitions. */
  function Prepared(k: nat, b: BState): BState {
    if k == 6 then SelectRoles(b) else b
  }

  lemma PreparedKeepsInv(k: nat, b: BState)
    ensures Inv(b) ==> var r := Prepared(k, b); Inv(r) && |r.ports| == |b.ports| && r.cfg == b.cfg
  {
    if k == 6 && Inv(b) { SelectionKeepsInv(b); }
  }

  /** Machine `k` of a pass, with the role selection that comes before it. */
  ghost function Phase(): (BState, nat) -> BState {
    (b: BState, k: nat) => if k < PHASES then Whole(Turn(k), Prepared(k, b)) else b
  }

  /** The routine keeps the invariant of every good state. */
  ghost predicate Sane(f: (BState, nat) -> BState) {
    forall b, k: nat :: Inv(b) ==> Inv(f(b, k)) && |f(b, k).ports| == |b.ports| && f(b, k).cfg == b.cfg
  }

  lemma {:induction false} SaneInTurn(f: (BState, nat) -> BState, b: BState, n: nat)
    requires Inv(b) && Sane(f)
    ensures var r := InTurn(f, b, n); Inv(r) && |r.ports| == |b.ports| && r.cfg == b.cfg
  {
    if n > 0 { SaneInTurn(f, b, n - 1); }
  }

  /** Every application keeps the property. */
  ghost predicate Keeps(f: (BState, nat) -> BState, p: BState -> bool) {
    forall b, k: nat :: Inv(b) && p(b) ==> p(f(b, k))
  }

  lemma {:induction false} KeptInTurn(f: (BState, nat) -> BState, p: BState -> bool, b: BState, n: nat)
    requires Inv(b) && p(b) && Sane(f) && Keeps(f, p)
    ensures p(InTurn(f, b, n))
  {
    if n > 0 {
      KeptInTurn(f, p, b, n - 1);
      SaneInTurn(f, b, n - 1);
    }
  }

  lemma PhasesAreSane()
    ensures Sane(Phase())
  {
    forall b, k: nat | Inv(b)
      ensures var r := Phase()(b, k); Inv(r) && |r.ports| == |b.ports| && r.cfg == b.cfg
    {
      PreparedKeepsInv(k, b);
    }
  }

  lemma ReachedKeepsInv(b: BState, k: nat)
    ensures Inv(b) ==> var r := InTurn(Phase(), b, k); Inv(r) && |r.ports| == |b.ports| && r.cfg == b.cfg
  {
    PhasesAreSane();
    if Inv(b) { SaneInTurn(Phase(), b, k); }
  }

  /** A pass up to machine `k`, which has not run yet. */
  ghost function Reached(b: BState, k: nat): (r: BState)
    ensures Inv(b) ==> Inv(r) && |r.ports| == |b.ports| && r.cfg == b.cfg
  {
    ReachedKeepsInv(b, k);
    InTurn(Phase(), b, k)
  }

  /** The state in which machine `k` runs. */
  ghost function PhaseStart(b: BState, k: nat): (r: BState)
    ensures Inv(b) ==> Inv(r) && |r.ports| == |b.ports| && r.cfg == b.cfg
  {
    PreparedKeepsInv(k, Reached(b, k));
    Prepared(k, Reached(b, k))
  }

  lemma NextPhase(b: BState, k: nat)
    requires k < PHASES
    ensures Reached(b, k + 1) == Whole(Turn(k), PhaseStart(b, k))
  {
    assert Reached(b, k + 1) == Phase()(Reached(b, k), k);
  }

  /** An actual pass: `__br_state_machines_run(br, false)`. */
  ghost function Pass(b: BState): (r: BState)
    ensures Inv(b) ==> Inv(r) && |r.ports| == |b.ports| && r.cfg == b.cfg
  {
    Reached(b, PHASES)
  }

  ghost function OnePass(): (BState, nat) -> BState {
    (b: BState, n: nat) => Pass(b)
  }

  lemma PassesKeepInv(b: BState, n: nat)
    ensures Inv(b) ==> var r := InTurn(OnePass(), b, n); Inv(r) && |r.ports| == |b.ports| && r.cfg == b.cfg
  {
    if Inv(b) { SaneInTurn(OnePass(), b, n); }
  }

  /** `n` passes in a row. */
  ghost function Passes(b: BState, n: nat): (r: BState)
    ensures Inv(b) ==> Inv(r) && |r.ports| == |b.ports| && r.cfg == b.cfg
  {
    PassesKeepInv(b, n);
    InTurn(OnePass(), b, n)
  }

  /** What every pass keeps. */
  lemma KeptByPasses(p: BState -> bool, b: BState, n: nat)
    requires Inv(b) && p(b) && forall c :: Inv(c) && p(c) ==> p(Pass(c))
    ensures p(Passes(b, n))
  {
    KeptInTurn(OnePass(), p, b, n);
  }

  lemma NextPass(b: BState, n: nat)
    ensures Passes(b, 0) == b && Passes(b, n + 1) == Pass(Passes(b, n))
  {
    assert Passes(b, n + 1) == OnePass()(Passes(b, n), n);
  }

  /** What a dry run of the whole pass reports. */
  ghost predicate DryPass(b: BState) {
    SelectionEnabled(b) || exists m, i: nat :: Enabled(m, b, i)
  }

  lemma {:induction false} IdleInTurn(f: (BState, nat) -> BState, b: BState, n: nat)
    requires forall i: nat :: i < n ==> f(b, i) == b
    ensures InTurn(f, b, n) == b
  {
    if n > 0 {
      IdleInTurn(f, b, n - 1);
    }
  }

  lemma QuietPhaseIsIdentity(m: Machine, b: BState)
    requires Inv(b) && forall i :: 0 <= i < |b.ports| ==> !Enabled(m, b, i)
    ensures Whole(m, b) == b
  {
    forall i: nat | i < |b.ports|
      ensures Step(m)(b, i) == b
    {
      DryIffChange(m, b, i);
    }
    IdleInTurn(Step(m), b, |b.ports|);
  }

  /** Dry-run soundness: when a dry run of the pass reports nothing, the actual pass changes no variable of
      any port or tree and emits nothing. */
  lemma QuietPassIsFixpoint(b: BState)
    requires Inv(b) && !DryPass(b)
    ensures Pass(b) == b
  {
    forall k: nat | k < PHASES
      ensures Phase()(b, k) == b
    {
      QuietPhaseIsIdentity(Turn(k), b);
    }
    IdleInTurn(Phase(), b, PHASES);
  }

  // ---- After a pass every port is in the state its role asks for ----

  predicate Aligned(p: Ptp) {
    p.learning == p.learn && p.forwarding == p.forward
  }

  predicate SameMotion(p: Ptp, q: Ptp) {
    q.learn == p.learn && q.forward == p.forward && q.learning == p.learning && q.forwarding == p.forwarding
  }

  ghost predicate MotionKept(b: BState, r: BState, j: nat) {
    j < |b.tree.ptps| && j < |r.tree.ptps| && SameMotion(b.tree.ptps[j], r.tree.ptps[j])
  }

  ghost predicate AlignedAt(r: BState, j: nat) {
    j < |r.tree.ptps| && Aligned(r.tree.ptps[j])
  }

  /** The routine leaves the motion of all ports alone, except perhaps that of the port it works on. */
  ghost predicate KeepsMotion(f: (BState, nat) -> BState, ofOthersOnly: bool) {
    forall b, i: nat, j: nat :: Inv(b) && i < |b.ports| && j < |b.ports| && (j != i || !ofOthersOnly) ==>
      MotionKept(b, f(b, i), j)
  }

  /** The routine aligns the port it works on. */
  ghost predicate Aligns(f: (BState, nat) -> BState) {
    forall b, i: nat :: Inv(b) && i < |b.ports| ==> AlignedAt(f(b, i), i)
  }

  lemma {:induction false} AligningAll(f: (BState, nat) -> BState, b: BState, n: nat, j: nat)
    requires Inv(b) && j < n <= |b.ports| && Harmless(f) && Aligns(f) && KeepsMotion(f, true)
    ensures AlignedAt(InTurn(f, b, n), j)
    decreases n
  {
    InTurnKeepsInv(f, b, n - 1);
    var before := InTurn(f, b, n - 1);
    if j < n - 1 {
      AligningAll(f, b, n - 1, j);
      assert MotionKept(before, f(before, n - 1), j);
    }
  }

  lemma {:induction false} MotionKeptByAll(f: (BState, nat) -> BState, b: BState, n: nat, j: nat)
    requires Inv(b) && n <= |b.ports| && j < |b.ports| && Harmless(f) && KeepsMotion(f, false)
    ensures MotionKept(b, InTurn(f, b, n), j)
    decreases n
  {
    if n > 0 {
      MotionKeptByAll(f, b, n - 1, j);
      InTurnKeepsInv(f, b, n - 1);
      var before := InTurn(f, b, n - 1);
      assert MotionKept(before, f(before, n - 1), j);
    }
  }

  lemma StateTransitionAligns()
    ensures Aligns(Step(StateTransition)) && KeepsMotion(Step(StateTransition), true)
  {
    forall b, i: nat | Inv(b) && i < |b.ports|
      ensures AlignedAt(Step(StateTransition)(b, i), i)
    {
      assert EntryAt(b, i);
      PM.PstsmAligns(b.tree.ptps[i], b.ports[i].deleted, i);
      assert Step(StateTransition)(b, i) == RunStateTransition(b, i);
    }
  }

  lemma TopologyKeepsMotion()
    ensures KeepsMotion(Step(TopologyTc), false)
  {
    forall b, i: nat, j: nat | Inv(b) && i < |b.ports| && j < |b.ports|
      ensures MotionKept(b, Step(TopologyTc)(b, i), j)
    {
      assert EntryAt(b, i);
      TC.RestIsFramed(TC.Ctx(b.tree, b.ports[i], b.out), i, TC.EnvOf(b.cfg, b.tree.ptps[i]), i);
      assert Step(TopologyTc)(b, i) == RunTopology(b, i);
    }
  }

  /** At the end of every pass each port learns and forwards exactly as its role transitions decided; so no
      Alternate, Backup or Disabled Port learns or forwards, and a forwarding port also learns. */
  lemma PassAlignsPorts(b: BState, j: nat)
    requires Inv(b) && j < |b.ports|
    ensures var p := Pass(b).tree.ptps[j];
            && Aligned(p)
            && (p.role == RoleAlternate || p.role == RoleBackup || p.role == RoleDisabled ==>
                p.learning.Off? && p.forwarding.Off?)
            && (p.forwarding.On? ==> p.learning.On? && (p.role == RoleRoot || p.role == RoleDesignated))
  {
    var mid := AlignedBeforeTopology(b, j);
    StepIsHarmless(TopologyTc);
    TopologyKeepsMotion();
    MotionKeptByAll(Step(TopologyTc), mid, |b.ports|, j);
    assert EntryAt(Pass(b), j);
    AlignedRoles(Pass(b).tree.ptps[j]);
  }

  lemma AlignedBeforeTopology(b: BState, j: nat) returns (mid: BState)
    requires Inv(b) && j < |b.ports|
    ensures Inv(mid) && |mid.ports| == |b.ports| && AlignedAt(mid, j) && Pass(b) == Whole(TopologyTc, mid)
  {
    NextPhase(b, 7);
    NextPhase(b, 8);
    PhaseAligns(Reached(b, 7), j);
    mid := Reached(b, 8);
  }

  lemma PhaseAligns(b: BState, j: nat)
    requires Inv(b) && j < |b.ports|
    ensures AlignedAt(Whole(StateTransition, b), j)
  {
    StepIsHarmless(StateTransition);
    StateTransitionAligns();
    AligningAll(Step(StateTransition), b, |b.ports|, j);
  }

  lemma AlignedRoles(p: Ptp)
    requires EntryOk(p) && Aligned(p)
    ensures p.role == RoleAlternate || p.role == RoleBackup || p.role == RoleDisabled ==>
            p.learning.Off? && p.forwarding.Off?
    ensures p.forwarding.On? ==> p.learning.On? && (p.role == RoleRoot || p.role == RoleDesignated)
  {
  }
}
