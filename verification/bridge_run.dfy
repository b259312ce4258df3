/** The routines of the Topology Change and Port Role Selection machines on the bridge object, the loops of a pass, and
    the driver loop, for a bridge that has only the CIST. */
module BridgeRun {
  import opened Types
  import opened Driver
  import opened BridgeObject
  import opened Settling
  import InfoRoutines
  import PortRoutines
  import RoleRoutines
  import PI = PortInfo
  import PM = PortMachines
  import TC = TopologyChange
  import Roles

  /** The bridge object as a value. */
  ghost function View(b: Bridge): BState
    requires |b.trees| == 1
    reads b
  {
    BState(b.cfg, b.ports, b.trees[0], b.out)
  }

  ghost predicate Shape(b: Bridge)
    reads b
  {
    |b.trees| == 1 && |b.trees[0].ptps| == |b.ports| && b.trees[0].mstid == 0
  }

  ghost predicate Ok(b: Bridge)
    reads b
  {
    Shape(b) && Inv(View(b))
  }

  method PutPtp(b: Bridge, i: nat, p: Ptp)
    requires Shape(b) && i < |b.ports|
    modifies b`trees
    ensures Shape(b) && b.trees == old(b.trees)[0 := old(b.trees[0]).(ptps := old(b.trees[0].ptps)[i := p])]
  {
    b.trees := [b.trees[0].(ptps := b.trees[0].ptps[i := p])];
  }

  // ---- Columns of a bridge with one tree ----

  /** The column of the snapshot is the column of the value. */
  lemma OneTreeColumn(b: Bridge, i: nat)
    requires Shape(b) && i < |b.ports|
    ensures b.Valid() && ColumnIn(Now(b), i) == ColumnOf(View(b), i) && Holds(b, Now(b), i, ColumnOf(View(b), i))
  {
    HoldsNow(b, i);
    assert ColumnIn(Now(b), i).ptps == [b.trees[0].ptps[i]];
  }

  /** A column stored in the object is the column stored in the value. */
  lemma OneTreeStored(b: Bridge, was: Snapshot, s: BState, i: nat, c: PI.Column)
    requires |was.trees| == 1 && Holds(b, was, i, c)
    requires s.cfg == b.cfg && s.ports == was.ports && s.tree == was.trees[0] && s.tree.mstid == 0
    ensures Shape(b) && View(b) == PutColumn(s, i, c).(out := b.out)
  {
  }

  // ---- Topology Change ----

  /** The switch of `TCSM_run`. */
  method NextTopologyState(p: Ptp, prt: Port) returns (x: Option<TcsmState>)
    ensures x == TC.Target(p, prt)
  {
    var activePort := p.role == RoleRoot || p.role == RoleDesignated || p.role == RoleMaster;
    match p.tcsm
    case TcInactive => return if p.learn.On? && p.fdbFlush.Off? then Some(TcLearning) else None;
    case TcLearning =>
      if activePort && p.forward.On? && prt.operEdge.Off? { return Some(TcDetected); }
      if p.rcvdTc.On? || prt.rcvdTcn.On? || prt.rcvdTcAck.On? || p.tcProp.On? { return Some(TcLearning); }
      return if !activePort && p.learn.Off? && p.learning.Off? then Some(TcInactive) else None;
    case TcNotifiedTcn => return Some(TcNotifiedTc);
    case TcDetected | TcNotifiedTc | TcPropagating | TcAcknowledged => return Some(TcActive);
    case TcActive =>
      if !activePort || prt.operEdge.On? { return Some(TcLearning); }
      if prt.rcvdTcn.On? { return Some(TcNotifiedTcn); }
      if p.rcvdTc.On? { return Some(TcNotifiedTc); }
      if p.tcProp.On? { return Some(TcPropagating); }
      return if prt.rcvdTcAck.On? then Some(TcAcknowledged) else None;
  }

  /** `TCSM_run`. A dry run that meets the repeated LEARNING leaves the answer to the test of that state. */
  method TcsmRun(b: Bridge, i: nat, dry: bool) returns (changed: bool)
    requires Shape(b) && i < |b.ports| && b.trees[0].ptps[i].mstid == 0
    modifies b`ports, b`trees, b`out
    ensures Shape(b) && |b.ports| == |old(b.ports)|
    ensures dry ==> View(b) == old(View(b)) && (changed <==> TC.Dry(old(b.trees[0].ptps[i]), old(b.ports[i])))
    ensures !dry ==> !changed
    ensures !dry ==> var r := TC.Rest(TC.Ctx(old(b.trees[0]), old(b.ports[i]), old(b.out)), i,
                                      TC.EnvOf(b.cfg, old(b.trees[0].ptps[i])), i);
                     View(b) == BState(b.cfg, old(b.ports)[i := r.prt], r.tree, r.out)
    decreases TC.Measure(b.trees[0].ptps[i], b.ports[i])
  {
    var p, prt := b.trees[0].ptps[i], b.ports[i];
    var x := NextTopologyState(p, prt);
    if x.None? {
      assert b.ports[i := b.ports[i]] == b.ports;
      return false;
    }
    if dry {
      return p.tcsm != TcLearning || x.value != TcLearning || p.rcvdTc.On? || p.tcProp.On? || prt.rcvdTcn.On?
             || prt.rcvdTcAck.On?;
    }
    ghost var c, env := TC.Ctx(b.trees[0], b.ports[i], b.out), TC.EnvOf(b.cfg, p);
    TC.StepDecreases(c, i, env, i);
    TC.EnterControls(c, i, x.value, env, i);
    TcsmTo(b, i, x.value);
    var _ := TcsmRun(b, i, false);
    return false;
  }

  /** What the Topology Change machine works on, seen from port `i`. */
  ghost function CtxOf(b: Bridge, i: nat): TC.Ctx
    requires Shape(b) && i < |b.ports|
    reads b
  {
    TC.Ctx(b.trees[0], b.ports[i], b.out)
  }

  /** The bridge is as in `was`, except that the machine's working state for port `i` is `r`. */
  ghost predicate Reaches(b: Bridge, was: BState, i: nat, r: TC.Ctx)
    requires Shape(b) && i < |was.ports|
    reads b
  {
    View(b) == BState(was.cfg, was.ports[i := r.prt], r.tree, r.out)
  }

  method NewTcWhile(b: Bridge, i: nat, env: TC.Env)
    requires Shape(b) && i < |b.ports|
    modifies b`ports, b`trees
    ensures Shape(b) && Reaches(b, old(View(b)), i, TC.NewTcWhile(old(CtxOf(b, i)), i, env))
  {
    var p, prt := b.trees[0].ptps[i], b.ports[i];
    if p.tcWhile != 0 {
      assert b.ports[i := prt] == b.ports;
      return;
    }
    if prt.sendRSTP.On? {
      PutPtp(b, i, p.(tcWhile := env.hello + 1));
      TC.SetTopologyChange(b, 0, true);
      b.ports := b.ports[i := if p.mstid == 0 then prt.(newInfo := On) else prt.(newInfoMsti := On)];
      return;
    }
    PutPtp(b, i, p.(tcWhile := b.trees[0].rootTimes.maxAge + b.trees[0].rootTimes.forwardDelay));
    TC.SetTopologyChange(b, 0, true);
    assert b.ports[i := prt] == b.ports;
  }

  method StopTcWhile(b: Bridge, i: nat)
    requires Shape(b) && i < |b.ports|
    modifies b`trees
    ensures Shape(b) && Reaches(b, old(View(b)), i, TC.StopTcWhile(old(CtxOf(b, i)), i))
  {
    PutPtp(b, i, b.trees[0].ptps[i].(tcWhile := 0));
    TC.SetTopologyChange(b, 0, false);
    assert b.ports[i := b.ports[i]] == b.ports;
  }

  method SetFdbFlush(b: Bridge, i: nat, env: TC.Env)
    requires Shape(b) && i < |b.ports|
    modifies b`ports, b`trees, b`out
    ensures Shape(b) && Reaches(b, old(View(b)), i, TC.SetFdbFlush(old(CtxOf(b, i)), i, env, i))
  {
    var prt := b.ports[i];
    PutPtp(b, i, b.trees[0].ptps[i].(fdbFlush := Off));
    assert b.ports[i := prt] == b.ports;
    if prt.operEdge.On? || prt.deleted.On? { return; }
    if env.rstp {
      b.out := b.out + [FlushFids(i, b.trees[0].mstid)];
    } else {
      b.out := b.out + [SetAgeing(i, env.forwardDelay)];
      b.ports := b.ports[i := prt.(rapidAgeingWhile := env.forwardDelay)];
    }
  }

  method SetTcPropTree(b: Bridge, i: nat)
    requires Shape(b) && i < |b.ports|
    modifies b`trees
    ensures Shape(b) && Reaches(b, old(View(b)), i, TC.SetTcPropTree(old(CtxOf(b, i)), i))
  {
    assert b.ports[i := b.ports[i]] == b.ports;
    if b.ports[i].restrictedTcn.On? { return; }
    var row := b.trees[0].ptps;
    for j := 0 to |row|
      invariant |row| == |b.trees[0].ptps|
      invariant forall k :: 0 <= k < j ==>
                  row[k] == if k == i then b.trees[0].ptps[k] else b.trees[0].ptps[k].(tcProp := On)
      invariant forall k :: j <= k < |row| ==> row[k] == b.trees[0].ptps[k]
    {
      if j != i { row := row[j := row[j].(tcProp := On)]; }
    }
    assert row == TC.SetTcPropTree(CtxOf(b, i), i).tree.ptps;
    b.trees := [b.trees[0].(ptps := row)];
  }

  method TcsmToInactive(b: Bridge, i: nat)
    requires Shape(b) && i < |b.ports|
    modifies b`ports, b`trees, b`out
    ensures var env := TC.EnvOf(b.cfg, old(b.trees[0].ptps[i]));
            Shape(b) && Reaches(b, old(View(b)), i, TC.Enter(old(CtxOf(b, i)), i, TcInactive, env, i))
  {
    var env := TC.EnvOf(b.cfg, b.trees[0].ptps[i]);
    var cist := b.trees[0].ptps[i].mstid == 0;
    PutPtp(b, i, b.trees[0].ptps[i].(tcsm := TcInactive));
    SetFdbFlush(b, i, env);
    StopTcWhile(b, i);
    if cist { b.ports := b.ports[i := b.ports[i].(tcAck := Off)]; }
  }

  method TcsmToDetected(b: Bridge, i: nat)
    requires Shape(b) && i < |b.ports|
    modifies b`ports, b`trees, b`out
    ensures var env := TC.EnvOf(b.cfg, old(b.trees[0].ptps[i]));
            Shape(b) && Reaches(b, old(View(b)), i, TC.Enter(old(CtxOf(b, i)), i, TcDetected, env, i))
  {
    var env := TC.EnvOf(b.cfg, b.trees[0].ptps[i]);
    var cist := b.trees[0].ptps[i].mstid == 0;
    PutPtp(b, i, b.trees[0].ptps[i].(tcsm := TcDetected));
    NewTcWhile(b, i, env);
    SetTcPropTree(b, i);
    b.ports := b.ports[i := if cist then b.ports[i].(newInfo := On) else b.ports[i].(newInfoMsti := On)];
  }

  method TcsmToPropagating(b: Bridge, i: nat)
    requires Shape(b) && i < |b.ports|
    modifies b`ports, b`trees, b`out
    ensures var env := TC.EnvOf(b.cfg, old(b.trees[0].ptps[i]));
            Shape(b) && Reaches(b, old(View(b)), i, TC.Enter(old(CtxOf(b, i)), i, TcPropagating, env, i))
  {
    var env := TC.EnvOf(b.cfg, b.trees[0].ptps[i]);
    PutPtp(b, i, b.trees[0].ptps[i].(tcsm := TcPropagating));
    NewTcWhile(b, i, env);
    FlushAndClear(b, i, env);
  }

  method FlushAndClear(b: Bridge, i: nat, env: TC.Env)
    requires Shape(b) && i < |b.ports|
    modifies b`ports, b`trees, b`out
    ensures var f := TC.SetFdbFlush(old(CtxOf(b, i)), i, env, i);
            Shape(b) && Reaches(b, old(View(b)), i, TC.Put(f, i, f.tree.ptps[i].(tcProp := Off)))
  {
    SetFdbFlush(b, i, env);
    PutPtp(b, i, b.trees[0].ptps[i].(tcProp := Off));
  }

  method TcsmToLearning(b: Bridge, i: nat)
    requires Shape(b) && i < |b.ports|
    modifies b`ports, b`trees, b`out
    ensures var env := TC.EnvOf(b.cfg, old(b.trees[0].ptps[i]));
            Shape(b) && Reaches(b, old(View(b)), i, TC.Enter(old(CtxOf(b, i)), i, TcLearning, env, i))
  {
    var p := b.trees[0].ptps[i].(tcsm := TcLearning);
    if p.mstid == 0 { b.ports := b.ports[i := b.ports[i].(rcvdTcn := Off, rcvdTcAck := Off)]; }
    PutPtp(b, i, p.(rcvdTc := Off, tcProp := Off));
    assert b.ports[i := b.ports[i]] == b.ports;
  }

  method TcsmToNotifiedTcn(b: Bridge, i: nat)
    requires Shape(b) && i < |b.ports|
    modifies b`ports, b`trees, b`out
    ensures var env := TC.EnvOf(b.cfg, old(b.trees[0].ptps[i]));
            Shape(b) && Reaches(b, old(View(b)), i, TC.Enter(old(CtxOf(b, i)), i, TcNotifiedTcn, env, i))
  {
    var p := b.trees[0].ptps[i].(tcsm := TcNotifiedTcn);
    var env := TC.EnvOf(b.cfg, b.trees[0].ptps[i]);
    PutPtp(b, i, p);
    NewTcWhile(b, i, env);
  }

  method TcsmToNotifiedTc(b: Bridge, i: nat)
    requires Shape(b) && i < |b.ports|
    modifies b`ports, b`trees, b`out
    ensures var env := TC.EnvOf(b.cfg, old(b.trees[0].ptps[i]));
            Shape(b) && Reaches(b, old(View(b)), i, TC.Enter(old(CtxOf(b, i)), i, TcNotifiedTc, env, i))
  {
    PutPtp(b, i, b.trees[0].ptps[i].(tcsm := TcNotifiedTc));
    Notice(b, i);
    SetTcPropTree(b, i);
  }

  method Notice(b: Bridge, i: nat)
    requires Shape(b) && i < |b.ports|
    modifies b`ports, b`trees
    ensures Shape(b) && Reaches(b, old(View(b)), i, TC.Noticed(old(CtxOf(b, i)), i))
  {
    var p, prt := b.trees[0].ptps[i], b.ports[i];
    PutPtp(b, i, p.(rcvdTc := Off));
    if p.mstid == 0 {
      prt := prt.(rcvdTcn := Off, tcAck := if p.role == RoleDesignated then On else prt.tcAck);
    }
    b.ports := b.ports[i := prt];
  }

  method TcsmToAcknowledged(b: Bridge, i: nat)
    requires Shape(b) && i < |b.ports|
    modifies b`ports, b`trees, b`out
    ensures var env := TC.EnvOf(b.cfg, old(b.trees[0].ptps[i]));
            Shape(b) && Reaches(b, old(View(b)), i, TC.Enter(old(CtxOf(b, i)), i, TcAcknowledged, env, i))
  {
    var p := b.trees[0].ptps[i].(tcsm := TcAcknowledged);
    PutPtp(b, i, p);
    StopTcWhile(b, i);
    b.ports := b.ports[i := b.ports[i].(rcvdTcAck := Off)];
  }

  method TcsmTo(b: Bridge, i: nat, x: TcsmState)
    requires Shape(b) && i < |b.ports|
    modifies b`ports, b`trees, b`out
    ensures var env := TC.EnvOf(b.cfg, old(b.trees[0].ptps[i]));
            Shape(b) && Reaches(b, old(View(b)), i, TC.Enter(old(CtxOf(b, i)), i, x, env, i))
  {
    match x
    case TcInactive => TcsmToInactive(b, i);
    case TcLearning => TcsmToLearning(b, i);
    case TcDetected => TcsmToDetected(b, i);
    case TcNotifiedTcn => TcsmToNotifiedTcn(b, i);
    case TcNotifiedTc => TcsmToNotifiedTc(b, i);
    case TcPropagating => TcsmToPropagating(b, i);
    case TcAcknowledged => TcsmToAcknowledged(b, i);
    case TcActive =>
      PutPtp(b, i, b.trees[0].ptps[i].(tcsm := TcActive));
      assert b.ports[i := b.ports[i]] == b.ports;
  }

  // ---- Port Role Selection ----

  /** `PRSSM_run` on the CIST. */
  method PrssmRun(b: Bridge, dry: bool) returns (changed: bool)
    requires Shape(b)
    modifies b`trees
    ensures Shape(b)
    ensures dry ==> View(b) == old(View(b)) && (changed <==> SelectionEnabled(old(View(b))))
    ensures !dry ==> !changed && View(b) == SelectRoles(old(View(b)))
  {
    var enabled := b.trees[0].prssm == InitTree;
    for j := 0 to |b.trees[0].ptps|
      invariant enabled <==> b.trees[0].prssm == InitTree || exists k :: 0 <= k < j && b.trees[0].ptps[k].reselect.On?
    {
      if b.trees[0].ptps[j].reselect.On? { enabled := true; }
    }
    if !enabled { return false; }
    if dry { return true; }
    SelectTree(b);
    return false;
  }

  method SelectTree(b: Bridge)
    requires Shape(b)
    modifies b`trees
    ensures Shape(b) && View(b) == Selected(old(View(b)))
  {
    ClearReselectTree(b);
    OneTree(b.trees, b.ports);
    Roles.UpdtRolesTree(b, 0);
    SetSelectedTree(b);
  }

  /** With the CIST as the only tree, role selection touches nothing else. */
  lemma OneTree(trees: seq<Tree>, ports: seq<Port>)
    requires |trees| == 1 && MeshShape(ports, trees)
    ensures Roles.UpdatedTrees(trees, ports, 0) == [Roles.UpdatedTree(trees[0], ports, trees[0].ptps)]
  {
  }

  method ClearReselectTree(b: Bridge)
    requires Shape(b)
    modifies b`trees
    ensures Shape(b) && b.trees == [ClearedTree(old(b.trees[0]))]
  {
    var row := b.trees[0].ptps;
    for j := 0 to |row|
      invariant |row| == |b.ports|
      invariant forall k :: 0 <= k < j ==> row[k] == b.trees[0].ptps[k].(reselect := Off)
      invariant forall k :: j <= k < |row| ==> row[k] == b.trees[0].ptps[k]
    {
      row := row[j := row[j].(reselect := Off)];
    }
    assert row == ClearedTree(b.trees[0]).ptps;
    b.trees := [b.trees[0].(prssm := RoleSelection, ptps := row)];
  }

  method SetSelectedTree(b: Bridge)
    requires Shape(b)
    modifies b`trees
    ensures Shape(b) && b.trees == [SelectedTree(old(b.trees[0]))]
  {
    var row := b.trees[0].ptps;
    for j := 0 to |row|
      invariant |row| == |b.ports|
      invariant forall k :: 0 <= k < j ==> row[k] == b.trees[0].ptps[k].(selected := On)
      invariant forall k :: j <= k < |row| ==> row[k] == b.trees[0].ptps[k]
    {
      row := row[j := row[j].(selected := On)];
    }
    assert row == SelectedTree(b.trees[0]).ptps;
    b.trees := [b.trees[0].(ptps := row)];
  }

  // ---- One machine on one port ----

  method RunRoles(b: Bridge, i: nat, dry: bool) returns (changed: bool)
    requires Ok(b) && i < |b.ports|
    modifies b`ports, b`trees
    ensures Shape(b)
    ensures dry ==> View(b) == old(View(b)) && (changed <==> Enabled(RoleTransition, old(View(b)), i))
    ensures !dry ==> !changed && View(b) == RunRoleTransition(old(View(b)), i)
  {
    assert EntryAt(View(b), i);
    changed := RoleRoutines.PrtsmRun(b, 0, i, dry);
  }

  method RunInformation(b: Bridge, i: nat, dry: bool) returns (changed: bool)
    requires Ok(b) && i < |b.ports|
    modifies b`ports, b`trees
    ensures Shape(b)
    ensures dry ==> View(b) == old(View(b)) && (changed <==> Enabled(Information, old(View(b)), i))
    ensures !dry ==> !changed && View(b) == PutColumn(old(View(b)), i, PI.Rest(ColumnOf(old(View(b)), i), 0, b.cfg))
  {
    ghost var was, s := Now(b), View(b);
    ghost var c := ColumnOf(s, i);
    OneTreeColumn(b, i);
    changed := InfoRoutines.PismRun(b, 0, i, dry, was, c);
    if !dry { OneTreeStored(b, was, s, i, PI.Rest(c, 0, b.cfg)); }
  }

  method RunReceive(b: Bridge, i: nat, dry: bool) returns (changed: bool)
    requires Ok(b) && i < |b.ports|
    modifies b`ports, b`trees
    ensures Shape(b)
    ensures dry ==> View(b) == old(View(b)) && (changed <==> Enabled(Receive, old(View(b)), i))
    ensures !dry ==> !changed && View(b) == PutColumn(old(View(b)), i, PM.PrsmRun(ColumnOf(old(View(b)), i), b.cfg))
  {
    ghost var was, s := Now(b), View(b);
    ghost var c := ColumnOf(s, i);
    assert EntryAt(s, i);
    OneTreeColumn(b, i);
    changed := PortRoutines.PrsmRun(b, i, dry, was, c);
    if !dry { OneTreeStored(b, was, s, i, PM.PrsmRun(c, b.cfg)); }
  }

  method RunTransmit(b: Bridge, i: nat, dry: bool) returns (changed: bool)
    requires Ok(b) && i < |b.ports|
    modifies b`ports, b`out
    ensures Shape(b)
    ensures dry ==> View(b) == old(View(b)) && (changed <==> Enabled(Transmission, old(View(b)), i))
    ensures !dry ==> !changed && View(b) == RunTransmission(old(View(b)), i)
  {
    ghost var was, s := Now(b), View(b);
    ghost var c := ColumnOf(s, i);
    assert EntryAt(s, i);
    OneTreeColumn(b, i);
    changed := PortRoutines.PtsmRun(b, i, dry, was, c);
  }

  method RunState(b: Bridge, i: nat, dry: bool) returns (changed: bool)
    requires Ok(b) && i < |b.ports|
    modifies b`trees, b`out
    ensures Shape(b)
    ensures dry ==> View(b) == old(View(b)) && (changed <==> Enabled(StateTransition, old(View(b)), i))
    ensures !dry ==> !changed && View(b) == RunStateTransition(old(View(b)), i)
  {
    ghost var was, s := Now(b), View(b);
    ghost var c := ColumnOf(s, i);
    OneTreeColumn(b, i);
    changed := PortRoutines.PstsmRun(b, 0, i, dry, was, c);
    if !dry { OneTreeStored(b, was, s, i, PI.Put(c, 0, PM.PstsmRun(c.ptps[0], c.prt.deleted, i).0)); }
  }

  /** `BDSM_run` and the expiry of bridge assurance. */
  method RunSmall(m: Machine, b: Bridge, i: nat, dry: bool) returns (changed: bool)
    requires Ok(b) && i < |b.ports| && (m == Migration || m == Detection || m == Assurance)
    modifies b`ports
    ensures Shape(b)
    ensures dry ==> View(b) == old(View(b)) && (changed <==> Enabled(m, old(View(b)), i))
    ensures !dry ==> !changed && View(b) == RunOn(m, old(View(b)), i)
  {
    if m == Migration {
      changed := PortRoutines.PpmsmRun(b, i, dry);
      return;
    }
    if m == Detection {
      changed := PortRoutines.BdsmRun(b, i, dry);
      return;
    }
    var prt := b.ports[i];
    if prt.portEnabled.On? && prt.networkPort.On? && prt.pointToPoint.On? && prt.sendRSTP.On?
       && prt.brAssuRcvdInfoWhile == 0 && prt.baInconsistent.Off? {
      if dry { return true; }
      b.ports := b.ports[i := prt.(baInconsistent := On)];
    }
    return false;
  }

  /** Runs machine `m` on port `i`, or only tells whether it would change something. After an actual run there is
      nothing more to tell. */
  method RunMachine(m: Machine, b: Bridge, i: nat, dry: bool) returns (changed: bool)
    requires Ok(b) && i < |b.ports|
    modifies b
    ensures Ok(b) && |b.ports| == |old(b.ports)|
    ensures dry ==> View(b) == old(View(b)) && (changed <==> Enabled(m, old(View(b)), i))
    ensures !dry ==> !changed && View(b) == RunOn(m, old(View(b)), i)
    ensures !dry ==> (Enabled(m, View(b), i) <==> m == Detection && Flips(old(b.ports[i]), old(b.trees[0].ptps[i])))
  {
    ghost var was := View(b);
    assert EntryAt(was, i);
    RunKeepsInv(m, was, i);
    RunSettles(m, was, i);
    match m
    case RoleTransition => changed := RunRoles(b, i, dry);
    case TopologyTc => changed := TcsmRun(b, i, dry);
    case Information => changed := RunInformation(b, i, dry);
    case Transmission => changed := RunTransmit(b, i, dry);
    case StateTransition => changed := RunState(b, i, dry);
    case Receive => changed := RunReceive(b, i, dry);
    case Migration | Detection | Assurance => changed := RunSmall(m, b, i, dry);
  }

  // ---- The pass and the driver ----

  /** None of the first `n` ports would let the machine change anything. */
  ghost predicate Quiet(m: Machine, s: BState, n: nat)
    requires n <= |s.ports| == |s.tree.ptps|
  {
    n == 0 || (Quiet(m, s, n - 1) && !Enabled(m, s, n - 1))
  }

  lemma {:induction false} QuietMeans(m: Machine, s: BState, n: nat)
    requires n <= |s.ports| == |s.tree.ptps|
    ensures Quiet(m, s, n) <==> forall i :: 0 <= i < n ==> !Enabled(m, s, i)
  {
    if n > 0 { QuietMeans(m, s, n - 1); }
  }

  lemma {:induction false} OneIsNotQuiet(m: Machine, s: BState, i: nat, n: nat)
    requires i < n <= |s.ports| == |s.tree.ptps| && Enabled(m, s, i)
    ensures !Quiet(m, s, n)
  {
    if i < n - 1 { OneIsNotQuiet(m, s, i, n - 1); }
  }

  /** `run` gives the states after the first ports. */
  ghost predicate Follows(m: Machine, was: BState, run: nat -> BState) {
    forall i: nat :: FollowsAt(m, was, run, i)
  }

  ghost predicate FollowsAt(m: Machine, was: BState, run: nat -> BState, i: nat) {
    run(i) == InTurn(Step(m), was, i)
  }

  /** None of the first ports would let the machine change anything. */
  ghost predicate QuietSoFar(m: Machine, was: BState, i: nat) {
    i <= |was.ports| == |was.tree.ptps| && Quiet(m, was, i)
  }

  method RunOnPort(m: Machine, b: Bridge, i: nat, dry: bool, ghost was: BState, ghost run: nat -> BState)
    returns (changed: bool)
    requires Ok(b) && i < |b.ports| && |b.ports| == |was.ports| && Follows(m, was, run)
    requires if dry then View(b) == was && QuietSoFar(m, was, i) else View(b) == run(i)
    modifies b
    ensures Ok(b) && |b.ports| == |was.ports|
    ensures changed ==> dry && !QuietSoFar(m, was, |was.ports|)
    ensures if dry then View(b) == was && (!changed ==> QuietSoFar(m, was, i + 1)) else View(b) == run(i + 1)
  {
    ghost var before := View(b);
    assert FollowsAt(m, was, run, i) && FollowsAt(m, was, run, i + 1);
    changed := RunMachine(m, b, i, dry);
    if changed {
      OneIsNotQuiet(m, was, i, |was.ports|);
    } else if !dry {
      StepApplies(m, was, before, i);
    }
  }

  lemma StepApplies(m: Machine, was: BState, b: BState, i: nat)
    requires Inv(b) && i < |b.ports| && b == InTurn(Step(m), was, i)
    ensures RunOn(m, b, i) == InTurn(Step(m), was, i + 1)
  {
    assert Step(m)(b, i) == RunOn(m, b, i);
  }

  /** The loop over the ports; a dry run stops at the first port that reports a change. */
  method RunPorts(m: Machine, b: Bridge, dry: bool, ghost was: BState, ghost run: nat -> BState) returns (changed: bool)
    requires Ok(b) && View(b) == was == run(0) && QuietSoFar(m, was, 0) && Follows(m, was, run)
    modifies b
    ensures Ok(b) && |b.ports| == |was.ports|
    ensures changed ==> dry
    ensures if dry then View(b) == was && (changed <==> !QuietSoFar(m, was, |was.ports|))
            else View(b) == run(|was.ports|)
  {
    for i := 0 to |b.ports|
      invariant Ok(b) && |b.ports| == |was.ports|
      invariant if dry then View(b) == was && QuietSoFar(m, was, i) else View(b) == run(i)
    {
      changed := RunOnPort(m, b, i, dry, was, run);
      if changed { return true; }
    }
    return false;
  }

  /** One machine on all ports. */
  method RunPhase(m: Machine, b: Bridge, dry: bool) returns (changed: bool)
    requires Ok(b)
    modifies b
    ensures Ok(b) && |b.ports| == |old(b.ports)|
    ensures dry ==> View(b) == old(View(b)) && (changed <==> !Quiet(m, View(b), |b.ports|))
    ensures !dry ==> !changed && View(b) == Whole(m, old(View(b)))
  {
    ghost var was := View(b);
    ghost var run := PhaseRun(m, was);
    changed := RunPorts(m, b, dry, was, run);
  }

  lemma PhaseRun(m: Machine, was: BState) returns (run: nat -> BState)
    requires Inv(was)
    ensures Follows(m, was, run) && run(0) == was && run(|was.ports|) == Whole(m, was) && QuietSoFar(m, was, 0)
  {
    run := (i: nat) => InTurn(Step(m), was, i);
  }

  /** The first `k` machines have run, in an actual run or a dry run that reported nothing. */
  ghost predicate PassAt(s: BState, was: BState, k: nat, dry: bool) {
    && Inv(was) && k <= PHASES
    && if dry then s == was && QuietUpTo(was, k) else s == Reached(was, k)
  }

  /** None of the first `k` machines, nor role selection if it comes before them, would change anything. */
  ghost predicate QuietUpTo(s: BState, k: nat)
    requires |s.ports| == |s.tree.ptps| && k <= PHASES
  {
    (k > 6 ==> !SelectionEnabled(s)) && forall j :: 0 <= j < k ==> Quiet(Turn(j), s, |s.ports|)
  }

  lemma TurnOf(m: Machine) returns (k: nat)
    ensures k < PHASES && Turn(k) == m
  {
    k := match m
      case Assurance => 0
      case Receive => 1
      case Migration => 2
      case Detection => 3
      case Transmission => 4
      case Information => 5
      case RoleTransition => 6
      case StateTransition => 7
      case TopologyTc => 8;
  }

  lemma QuietThroughout(s: BState)
    requires |s.ports| == |s.tree.ptps|
    ensures QuietUpTo(s, PHASES) <==> !DryPass(s)
  {
    if QuietUpTo(s, PHASES) {
      forall m: Machine, i | 0 <= i < |s.ports|
        ensures !Enabled(m, s, i)
      {
        var k := TurnOf(m);
        QuietMeans(m, s, |s.ports|);
      }
    }
    if !DryPass(s) {
      forall j | 0 <= j < PHASES
        ensures Quiet(Turn(j), s, |s.ports|)
      {
        QuietMeans(Turn(j), s, |s.ports|);
      }
    }
  }

  /** Role selection where it is due, then machine `k` on all ports. */
  method RunTurn(k: nat, b: Bridge, dry: bool, ghost was: BState) returns (changed: bool)
    requires Ok(b) && k < PHASES && PassAt(View(b), was, k, dry) && |was.ports| == |b.ports|
    modifies b
    ensures Ok(b) && |b.ports| == |was.ports|
    ensures changed ==> dry && View(b) == was && DryPass(was)
    ensures !changed ==> PassAt(View(b), was, k + 1, dry)
  {
    if k == 6 {
      SelectionKeepsInv(View(b));
      changed := PrssmRun(b, dry);
      if changed { return true; }
    }
    if !dry { NextPhase(was, k); }
    changed := RunPhase(Turn(k), b, dry);
    if changed { QuietMeans(Turn(k), was, |was.ports|); }
  }

  /** `__br_state_machines_run`. */
  method StateMachinesRun(b: Bridge, dry: bool) returns (changed: bool)
    requires Ok(b)
    modifies b
    ensures Ok(b) && |b.ports| == |old(b.ports)|
    ensures dry ==> View(b) == old(View(b)) && (changed <==> DryPass(old(View(b))))
    ensures !dry ==> !changed && View(b) == Pass(old(View(b)))
  {
    ghost var was := View(b);
    for k := 0 to PHASES
      invariant Ok(b) && |b.ports| == |was.ports| && PassAt(View(b), was, k, dry)
    {
      changed := RunTurn(k, b, dry, was);
      if changed { return true; }
    }
    QuietThroughout(was);
    return false;
  }

  /** `run` gives the states after the first passes. */
  ghost predicate PassesFollow(was: BState, run: nat -> BState) {
    Inv(was) && forall n: nat :: PassesFollowAt(was, run, n)
  }

  ghost predicate PassesFollowAt(was: BState, run: nat -> BState, n: nat)
    requires Inv(was)
  {
    run(n) == Passes(was, n)
  }

  lemma PassRun(was: BState) returns (run: nat -> BState)
    requires Inv(was)
    ensures PassesFollow(was, run) && run(0) == was
  {
    run := (n: nat) => if Inv(was) then Passes(was, n) else was;
    forall n: nat
      ensures PassesFollowAt(was, run, n)
    {
    }
    NextPass(was, 0);
  }

  /** One round of the driver loop: a dry pass, and an actual one unless the dry pass reports nothing. */
  method OneRound(b: Bridge, ghost was: BState, ghost run: nat -> BState, ghost n: nat) returns (quiet: bool)
    requires Ok(b) && PassesFollow(was, run) && View(b) == run(n)
    modifies b
    ensures Ok(b)
    ensures if quiet then View(b) == run(n) && Pass(View(b)) == View(b) else View(b) == run(n + 1)
  {
    assert PassesFollowAt(was, run, n) && PassesFollowAt(was, run, n + 1);
    NextPass(was, n);
    var changed := StateMachinesRun(b, true);
    if !changed {
      QuietPassIsFixpoint(View(b));
      return true;
    }
    changed := StateMachinesRun(b, false);
    return false;
  }

  /** The driver loop: the clock is looked at after each pass, so that there is at least one, unless the first dry run
      reports nothing; `limit` is the number of further passes for which there is time. */
  method Rounds(b: Bridge, limit: nat, ghost was: BState, ghost run: nat -> BState) returns (n: nat)
    requires Ok(b) && PassesFollow(was, run) && View(b) == run(0)
    modifies b
    ensures Ok(b) && n <= limit + 1 && View(b) == run(n)
    ensures n <= limit ==> Pass(View(b)) == View(b)
  {
    n := 0;
    while true
      invariant Ok(b) && n <= limit && View(b) == run(n)
      decreases limit - n
    {
      var quiet := OneRound(b, was, run, n);
      if quiet { return; }
      n := n + 1;
      if n > limit { return; }
    }
  }

  /** `br_state_machines_run`: it stops early only at a state that no further pass would change. */
  method BrStateMachinesRun(b: Bridge, limit: nat) returns (n: nat)
    requires Ok(b)
    modifies b
    ensures Ok(b) && n <= limit + 1
    ensures View(b) == if old(b.cfg.enabled) then Passes(old(View(b)), n) else old(View(b))
    ensures old(b.cfg.enabled) && n <= limit ==> Pass(View(b)) == View(b)
  {
    n := 0;
    if !b.cfg.enabled { return; }
    ghost var was := View(b);
    ghost var run := PassRun(was);
    n := Rounds(b, limit, was, run);
    assert PassesFollowAt(was, run, n);
  }
}
