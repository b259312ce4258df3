/** The routines of the Port Role Transitions machine (section 13.34), which update the row of a tree in place: the
    loops for allSynced and reRooted, the `PRTSM_to_X` routines, and `PRTSM_run`, for any tree of the bridge. */
module RoleRoutines {
  import opened Types
  import opened RoleTransitions
  import opened BridgeObject

  // ---- Conditions over the whole tree ----

  /** The loop of section 13.25.1, left at the first port that is not in sync. */
  method ComputeAllSynced(ptps: seq<Ptp>, i: nat) returns (allSynced: bool)
    requires i < |ptps|
    ensures allSynced == AllSynced(ptps, i)
  {
    allSynced := true;
    for j := 0 to |ptps|
      invariant allSynced
      invariant forall k :: 0 <= k < j ==> Active(ptps[k]) && ptps[k].role == ptps[k].selectedRole
      invariant forall k :: 0 <= k < j ==>
        match ptps[i].role
        case RoleRoot | RoleAlternate => ptps[k].role != RoleRoot ==> ptps[k].synced.On?
        case RoleDesignated | RoleMaster => k != i ==> ptps[k].synced.On?
        case _ => false
    {
      if ptps[j].selected.Off? || ptps[j].role != ptps[j].selectedRole || ptps[j].updtInfo.On? {
        return false;
      }
      match ptps[i].role
      case RoleRoot | RoleAlternate =>
        if ptps[j].role != RoleRoot && ptps[j].synced.Off? { return false; }
      case RoleDesignated | RoleMaster =>
        if j != i && ptps[j].synced.Off? { return false; }
      case _ =>
        return false;
    }
  }

  method ComputeReRooted(ptps: seq<Ptp>, i: nat) returns (reRooted: bool)
    ensures reRooted == ReRooted(ptps, i)
  {
    for j := 0 to |ptps|
      invariant forall k :: 0 <= k < j && k != i ==> ptps[k].rrWhile == 0
    {
      if j != i && ptps[j].rrWhile != 0 { return false; }
    }
    return true;
  }

  // ---- The states ----

  /** Entering these states touches no other port. */
  predicate OwnOnly(x: PrtsmState) {
    x != MasterProposed && x != RootProposed && x != AlternateProposed && x != Reroot
  }

  lemma OwnEntry(row: Row, i: nat, x: PrtsmState, env: Env)
    requires i < |row.ptps| && OwnOnly(x)
    ensures Enter(row, i, x, env)
         == Row(ActPort(row.prt, row.ptps[i], x, env), row.ptps[i := Act(row.ptps[i], x, row.prt, env)])
  {
    var r := Enter(row, i, x, env);
    assert r.ptps == row.ptps[i := Act(row.ptps[i], x, row.prt, env)];
  }

  method ToDisabledState(b: Bridge, t: nat, i: nat, x: PrtsmState, env: Env, ghost was: Snapshot, ghost row: Row)
    requires HoldsRow(b, was, t, i, row) && FamilyOf(x) == FamDisabled
    modifies b`trees
    ensures HoldsRow(b, was, t, i, Enter(row, i, x, env))
  {
    var p := b.trees[t].ptps[i].(prtsm := x);
    match x {
      case InitPort =>
        p := p.(role := RoleDisabled, learn := Off, forward := Off, synced := Off, sync := On, reRoot := On);
        p := p.(rrWhile := env.fwdDelay, fdWhile := env.maxAge, rbWhile := 0);
      case DisablePort => p := p.(role := RoleDisabled, learn := Off, forward := Off);
      case DisabledPort =>
        p := p.(fdWhile := env.maxAge, synced := On, rrWhile := 0);
        p := p.(sync := Off, reRoot := Off);
    }
    PutInRow(b, t, i, p, was, row);
    OwnEntry(row, i, x, env);
  }

  /** `setSyncTree`, between the change of state and the end of the proposal. */
  method ToProposed(b: Bridge, t: nat, i: nat, x: PrtsmState, env: Env, ghost was: Snapshot, ghost row: Row)
    requires HoldsRow(b, was, t, i, row) && (x == MasterProposed || x == RootProposed || x == AlternateProposed)
    modifies b`trees
    ensures HoldsRow(b, was, t, i, Enter(row, i, x, env))
  {
    PutInRow(b, t, i, b.trees[t].ptps[i].(prtsm := x), was, row);
    ghost var r1 := row.(ptps := row.ptps[i := row.ptps[i].(prtsm := x)]);
    ForAllPorts(b, t, i, (q: Ptp) => q.(sync := On), was, r1);
    ghost var r2 := r1.(ptps := EachEntry(r1.ptps, (q: Ptp) => q.(sync := On), |r1.ptps|));
    PutInRow(b, t, i, b.trees[t].ptps[i].(proposed := Off), was, r2);
    assert r2.ptps[i := r2.ptps[i].(proposed := Off)] == Enter(row, i, x, env).ptps;
  }

  /** `setReRootTree`. */
  method ToReroot(b: Bridge, t: nat, i: nat, env: Env, ghost was: Snapshot, ghost row: Row)
    requires HoldsRow(b, was, t, i, row)
    modifies b`trees
    ensures HoldsRow(b, was, t, i, Enter(row, i, Reroot, env))
  {
    PutInRow(b, t, i, b.trees[t].ptps[i].(prtsm := Reroot), was, row);
    ghost var r1 := row.(ptps := row.ptps[i := row.ptps[i].(prtsm := Reroot)]);
    ForAllPorts(b, t, i, (q: Ptp) => q.(reRoot := On), was, r1);
    assert EachEntry(r1.ptps, (q: Ptp) => q.(reRoot := On), |r1.ptps|) == Enter(row, i, Reroot, env).ptps;
  }

  method ToMasterState(b: Bridge, t: nat, i: nat, x: PrtsmState, env: Env, ghost was: Snapshot, ghost row: Row)
    requires HoldsRow(b, was, t, i, row) && FamilyOf(x) == FamMaster
    modifies b`trees
    ensures HoldsRow(b, was, t, i, Enter(row, i, x, env))
  {
    if x == MasterProposed {
      ToProposed(b, t, i, x, env, was, row);
      return;
    }
    var p := b.trees[t].ptps[i].(prtsm := x);
    if x == MasterAgreed { p := p.(proposed := Off, sync := Off, agree := On); }
    if x == MasterSynced { p := p.(rrWhile := 0, synced := On, sync := Off); }
    if x == MasterRetired { p := p.(reRoot := Off); }
    if x == MasterForward { p := p.(forward := On, fdWhile := 0, agreed := b.ports[i].sendRSTP); }
    if x == MasterLearn { p := p.(learn := On, fdWhile := env.forwardDelay); }
    if x == MasterDiscard { p := p.(learn := Off, forward := Off, disputed := Off, fdWhile := env.forwardDelay); }
    if x == MasterPort { p := p.(role := RoleMaster); }
    PutInRow(b, t, i, p, was, row);
    OwnEntry(row, i, x, env);
  }

  /** The request to transmit, for the CIST or for the MSTIs. */
  method RequestTransmission(b: Bridge, t: nat, i: nat, env: Env, ghost was: Snapshot, ghost row: Row)
    requires HoldsRow(b, was, t, i, row) && env.cist == (t == 0)
    modifies b`ports
    ensures HoldsRow(b, was, t, i, row.(prt := NewInfo(row.prt, env)))
  {
    var prt := b.ports[i];
    PutRowPort(b, t, i, if t == 0 then prt.(newInfo := On) else prt.(newInfoMsti := On), was, row);
  }

  method ToRootState(b: Bridge, t: nat, i: nat, x: PrtsmState, env: Env, ghost was: Snapshot, ghost row: Row)
    requires HoldsRow(b, was, t, i, row) && FamilyOf(x) == FamRoot && env.cist == (t == 0)
    modifies b`ports, b`trees
    ensures HoldsRow(b, was, t, i, Enter(row, i, x, env))
  {
    if x == RootProposed {
      ToProposed(b, t, i, x, env, was, row);
      return;
    }
    if x == Reroot {
      ToReroot(b, t, i, env, was, row);
      return;
    }
    var p := b.trees[t].ptps[i].(prtsm := x);
    if x == RootAgreed { p := p.(proposed := Off, sync := Off, agree := On); }
    if x == RootSynced { p := p.(synced := On, sync := Off); }
    if x == RootForward { p := p.(fdWhile := 0, forward := On); }
    if x == RootLearn { p := p.(fdWhile := env.forwardDelay, learn := On); }
    if x == Rerooted { p := p.(reRoot := Off); }
    if x == RootPort { p := p.(role := RoleRoot, rrWhile := env.fwdDelay); }
    PutInRow(b, t, i, p, was, row);
    OwnEntry(row, i, x, env);
    if x == RootAgreed { RequestTransmission(b, t, i, env, was, row.(ptps := row.ptps[i := p])); }
  }

  /** A port that proposes waits for an answer before it counts as an edge. */
  method ToDesignatedPropose(b: Bridge, t: nat, i: nat, env: Env, ghost was: Snapshot, ghost row: Row)
    requires HoldsRow(b, was, t, i, row) && env.cist == (t == 0) && env.migrateTime == b.cfg.migrateTime
    modifies b`ports, b`trees
    ensures HoldsRow(b, was, t, i, Enter(row, i, DesignatedPropose, env))
  {
    var p := b.trees[t].ptps[i].(prtsm := DesignatedPropose, proposing := On);
    PutInRow(b, t, i, p, was, row);
    OwnEntry(row, i, DesignatedPropose, env);
    ghost var r1 := row.(ptps := row.ptps[i := p]);
    if t == 0 {
      var prt := b.ports[i];
      var edgeDelay := if prt.pointToPoint.On? then b.cfg.migrateTime else p.designatedTimes.maxAge;
      PutRowPort(b, t, i, prt.(edgeDelayWhile := edgeDelay, newInfo := On), was, r1);
    } else {
      RequestTransmission(b, t, i, env, was, r1);
    }
  }

  method ToDesignatedState(b: Bridge, t: nat, i: nat, x: PrtsmState, env: Env, ghost was: Snapshot, ghost row: Row)
    requires HoldsRow(b, was, t, i, row) && FamilyOf(x) == FamDesignated
    requires env.cist == (t == 0) && env.migrateTime == b.cfg.migrateTime
    modifies b`ports, b`trees
    ensures HoldsRow(b, was, t, i, Enter(row, i, x, env))
  {
    if x == DesignatedPropose {
      ToDesignatedPropose(b, t, i, env, was, row);
      return;
    }
    var p := b.trees[t].ptps[i].(prtsm := x);
    if x == DesignatedAgreed { p := p.(proposed := Off, sync := Off, agree := On); }
    if x == DesignatedSynced { p := p.(rrWhile := 0, synced := On, sync := Off); }
    if x == DesignatedRetired { p := p.(reRoot := Off); }
    if x == DesignatedForward { p := p.(forward := On, fdWhile := 0, agreed := b.ports[i].sendRSTP); }
    if x == DesignatedLearn { p := p.(learn := On, fdWhile := env.forwardDelay); }
    if x == DesignatedDiscard { p := p.(learn := Off, forward := Off, disputed := Off, fdWhile := env.forwardDelay); }
    if x == DesignatedPort { p := p.(role := RoleDesignated); }
    PutInRow(b, t, i, p, was, row);
    OwnEntry(row, i, x, env);
    if x == DesignatedAgreed { RequestTransmission(b, t, i, env, was, row.(ptps := row.ptps[i := p])); }
  }

  method ToBlockedState(b: Bridge, t: nat, i: nat, x: PrtsmState, env: Env, ghost was: Snapshot, ghost row: Row)
    requires HoldsRow(b, was, t, i, row) && FamilyOf(x) == FamBlocked && env.cist == (t == 0)
    modifies b`ports, b`trees
    ensures HoldsRow(b, was, t, i, Enter(row, i, x, env))
  {
    if x == AlternateProposed {
      ToProposed(b, t, i, x, env, was, row);
      return;
    }
    var p := b.trees[t].ptps[i].(prtsm := x);
    if x == BlockPort { p := p.(role := p.selectedRole, learn := Off, forward := Off); }
    if x == BackupPort { p := p.(rbWhile := 2 * env.hello); }
    if x == AlternateAgreed { p := p.(proposed := Off, agree := On); }
    if x == AlternatePort {
      p := p.(fdWhile := env.forwardDelay, synced := On, rrWhile := 0, sync := Off, reRoot := Off);
    }
    PutInRow(b, t, i, p, was, row);
    OwnEntry(row, i, x, env);
    if x == AlternateAgreed { RequestTransmission(b, t, i, env, was, row.(ptps := row.ptps[i := p])); }
  }

  /** The `PRTSM_to_X` routines up to their call of `PRTSM_runr`. */
  method EnterState(b: Bridge, t: nat, i: nat, x: PrtsmState, env: Env, ghost was: Snapshot, ghost row: Row)
    requires HoldsRow(b, was, t, i, row) && env.cist == (t == 0) && env.migrateTime == b.cfg.migrateTime
    modifies b`ports, b`trees
    ensures HoldsRow(b, was, t, i, Enter(row, i, x, env))
  {
    match FamilyOf(x)
    case FamDisabled => ToDisabledState(b, t, i, x, env, was, row);
    case FamMaster => ToMasterState(b, t, i, x, env, was, row);
    case FamRoot => ToRootState(b, t, i, x, env, was, row);
    case FamDesignated => ToDesignatedState(b, t, i, x, env, was, row);
    case FamBlocked => ToBlockedState(b, t, i, x, env, was, row);
  }

  // ---- The recursion ----

  /** The switch of `PRTSM_runr` for a Master Port. */
  method NextOfMaster(p: Ptp, prt: Port, allSynced: bool) returns (x: Option<PrtsmState>)
    ensures x == MasterTarget(p, prt, allSynced)
  {
    if !(p.selected.On? && p.updtInfo.Off?) { return None; }
    if p.reRoot.On? && p.rrWhile == 0 { return Some(MasterRetired); }
    if (p.learning.Off? && p.forwarding.Off? && p.synced.Off?) || (p.agreed.On? && p.synced.Off?)
       || (prt.operEdge.On? && p.synced.Off?) || (p.sync.On? && p.synced.On?) {
      return Some(MasterSynced);
    }
    if (allSynced && p.agree.Off?) || (p.proposed.On? && p.agree.On?) { return Some(MasterAgreed); }
    if p.proposed.On? && p.agree.Off? { return Some(MasterProposed); }
    if (p.fdWhile == 0 || allSynced) && p.learn.On? && p.forward.Off? { return Some(MasterForward); }
    if (p.fdWhile == 0 || allSynced) && p.learn.Off? { return Some(MasterLearn); }
    if ((p.sync.On? && p.synced.Off?) || (p.reRoot.On? && p.rrWhile != 0) || p.disputed.On?)
       && prt.operEdge.Off? && (p.learn.On? || p.forward.On?) {
      return Some(MasterDiscard);
    }
    return None;
  }

  /** For a Root Port, with its loop over the re-root timers of the other ports. */
  method NextOfRoot(ptps: seq<Ptp>, i: nat, env: Env, allSynced: bool) returns (x: Option<PrtsmState>)
    requires i < |ptps|
    ensures x == RootTarget(ptps[i], env, allSynced, ReRooted(ptps, i))
  {
    var p := ptps[i];
    if !(p.selected.On? && p.updtInfo.Off?) { return None; }
    if p.forward.Off? && p.reRoot.Off? { return Some(Reroot); }
    if (p.agreed.On? && p.synced.Off?) || (p.sync.On? && p.synced.On?) { return Some(RootSynced); }
    if (allSynced && p.agree.Off?) || (p.proposed.On? && p.agree.On?) { return Some(RootAgreed); }
    if p.proposed.On? && p.agree.Off? { return Some(RootProposed); }
    var reRooted := ComputeReRooted(ptps, i);
    if p.fdWhile == 0 || (reRooted && p.rbWhile == 0 && env.rstp) {
      if p.learn.Off? { return Some(RootLearn); }
      if p.forward.Off? { return Some(RootForward); }
    }
    if p.reRoot.On? && p.forward.On? { return Some(Rerooted); }
    return if p.rrWhile != env.fwdDelay then Some(RootPort) else None;
  }

  /** For a Designated Port. */
  method NextOfDesignated(p: Ptp, prt: Port, allSynced: bool) returns (x: Option<PrtsmState>)
    ensures x == DesignatedTarget(p, prt, allSynced)
  {
    if !(p.selected.On? && p.updtInfo.Off?) { return None; }
    if p.reRoot.On? && p.rrWhile == 0 { return Some(DesignatedRetired); }
    if (p.learning.Off? && p.forwarding.Off? && p.synced.Off?) || (p.agreed.On? && p.synced.Off?)
       || (prt.operEdge.On? && p.synced.Off?) || (p.sync.On? && p.synced.On?) {
      return Some(DesignatedSynced);
    }
    if allSynced && (p.proposed.On? || p.agree.Off?) { return Some(DesignatedAgreed); }
    if p.forward.Off? && p.agreed.Off? && p.proposing.Off? && prt.operEdge.Off? { return Some(DesignatedPropose); }
    if (p.fdWhile == 0 || p.agreed.On? || prt.operEdge.On?) && (p.rrWhile == 0 || p.reRoot.Off?) && p.sync.Off?
       && prt.baInconsistent.Off? {
      if p.learn.Off? { return Some(DesignatedLearn); }
      if p.forward.Off? { return Some(DesignatedForward); }
    }
    if ((p.sync.On? && p.synced.Off?) || (p.reRoot.On? && p.rrWhile != 0) || p.disputed.On? || prt.baInconsistent.On?)
       && prt.operEdge.Off? && (p.learn.On? || p.forward.On?) {
      return Some(DesignatedDiscard);
    }
    return None;
  }

  /** For an Alternate or Backup Port. */
  method NextOfAlternate(p: Ptp, env: Env, allSynced: bool) returns (x: Option<PrtsmState>)
    ensures x == AlternateTarget(p, env, allSynced)
  {
    if !(p.selected.On? && p.updtInfo.Off?) { return None; }
    if (allSynced && p.agree.Off?) || (p.proposed.On? && p.agree.On?) { return Some(AlternateAgreed); }
    if p.proposed.On? && p.agree.Off? { return Some(AlternateProposed); }
    if p.rbWhile != 2 * env.hello && p.role == RoleBackup { return Some(BackupPort); }
    if p.fdWhile != env.forwardDelay || p.sync.On? || p.reRoot.On? || p.synced.Off? { return Some(AlternatePort); }
    return None;
  }

  /** The change of role, which comes before the switch. */
  method NextOfRole(role: Role) returns (x: PrtsmState)
    ensures x == PortStateOf(role)
  {
    match role
    case RoleDisabled => return DisablePort;
    case RoleRoot => return RootPort;
    case RoleDesignated => return DesignatedPort;
    case RoleAlternate | RoleBackup => return BlockPort;
    case RoleMaster => return MasterPort;
  }

  /** The conditions of `PRTSM_runr`. */
  method NextState(b: Bridge, t: nat, i: nat, env: Env, ghost was: Snapshot, ghost row: Row)
    returns (x: Option<PrtsmState>)
    requires HoldsRow(b, was, t, i, row)
    ensures x == RowTarget(row, i, env)
  {
    var p, prt := b.trees[t].ptps[i], b.ports[i];
    if p.role != p.selectedRole && p.selected.On? && p.updtInfo.Off? {
      var y := NextOfRole(p.selectedRole);
      return Some(y);
    }
    var allSynced := ComputeAllSynced(b.trees[t].ptps, i);
    var settled := p.selected.On? && p.updtInfo.Off?;
    match p.prtsm {
      case InitPort => return Some(DisablePort);
      case DisablePort => return if settled && p.learning.Off? && p.forwarding.Off? then Some(DisabledPort) else None;
      case DisabledPort =>
        var due := p.sync.On? || p.reRoot.On? || p.synced.Off? || p.fdWhile != env.maxAge;
        return if settled && due then Some(DisabledPort) else None;
      case MasterProposed | MasterAgreed | MasterSynced | MasterRetired | MasterForward | MasterLearn
        | MasterDiscard => return Some(MasterPort);
      case MasterPort => x := NextOfMaster(p, prt, allSynced);
      case RootProposed | RootAgreed | RootSynced | Reroot | RootForward | RootLearn | Rerooted =>
        return Some(RootPort);
      case RootPort => x := NextOfRoot(b.trees[t].ptps, i, env, allSynced);
      case DesignatedPropose | DesignatedAgreed | DesignatedSynced | DesignatedRetired | DesignatedForward
        | DesignatedLearn | DesignatedDiscard => return Some(DesignatedPort);
      case DesignatedPort => x := NextOfDesignated(p, prt, allSynced);
      case BlockPort => return if settled && p.learning.Off? && p.forwarding.Off? then Some(AlternatePort) else None;
      case BackupPort | AlternateProposed | AlternateAgreed => return Some(AlternatePort);
      case AlternatePort => x := NextOfAlternate(p, env, allSynced);
    }
  }

  /** `PRTSM_runr`: looks for a transition and, unless this is a dry run, takes it and goes on. */
  method PrtsmRunr(b: Bridge, t: nat, i: nat, env: Env, dry: bool, ghost was: Snapshot, ghost row: Row)
    returns (changed: bool)
    requires HoldsRow(b, was, t, i, row) && row.ptps[i].selectedRole != RoleMaster
    requires env.cist == (t == 0) && env.migrateTime == b.cfg.migrateTime
    modifies b`ports, b`trees
    ensures dry ==> b.ports == old(b.ports) && b.trees == old(b.trees)
    ensures dry ==> (changed <==> RowTarget(row, i, env).Some?)
    ensures !dry ==> !changed && HoldsRow(b, was, t, i, Rest(row, i, env))
    decreases Measure(row.ptps[i], row.prt, env), 0
  {
    var x := NextState(b, t, i, env, was, row);
    if x.None? { return false; }
    if dry { return true; }
    StepDecreases(row.ptps[i], row.prt, env, AllSynced(row.ptps, i), ReRooted(row.ptps, i));
    PrtsmTo(b, t, i, x.value, env, was, row);
    return false;
  }

  method PrtsmTo(b: Bridge, t: nat, i: nat, x: PrtsmState, env: Env, ghost was: Snapshot, ghost row: Row)
    requires HoldsRow(b, was, t, i, row) && row.ptps[i].selectedRole != RoleMaster
    requires env.cist == (t == 0) && env.migrateTime == b.cfg.migrateTime
    requires Decreases(row.ptps[i], row.prt, env, x)
    modifies b`ports, b`trees
    ensures HoldsRow(b, was, t, i, Rest(Enter(row, i, x, env), i, env))
    decreases Measure(Act(row.ptps[i], x, row.prt, env), ActPort(row.prt, row.ptps[i], x, env), env), 1
  {
    ActKeepsSelection(row.ptps[i], row.prt, env, x);
    EnterState(b, t, i, x, env, was, row);
    var _ := PrtsmRunr(b, t, i, env, false, was, Enter(row, i, x, env));
  }

  /** `PRTSM_run`: the outermost call computes the cached values. */
  method PrtsmRun(b: Bridge, t: nat, i: nat, dry: bool) returns (changed: bool)
    requires b.Valid() && t < |b.trees| && i < |b.ports| && b.trees[t].ptps[i].selectedRole != RoleMaster
    modifies b`ports, b`trees
    ensures dry ==> b.ports == old(b.ports) && b.trees == old(b.trees)
    ensures var env := EnvOf(b.cfg, old(b.trees[0].ptps[i]), old(b.ports[i]), t == 0);
            var row := old(Row(b.ports[i], b.trees[t].ptps));
            && (dry ==> (changed <==> RowTarget(row, i, env).Some?))
            && (!dry ==> !changed && HoldsRow(b, old(Now(b)), t, i, Rest(row, i, env)))
  {
    HoldsRowNow(b, t, i);
    var env := EnvOf(b.cfg, b.trees[0].ptps[i], b.ports[i], t == 0);
    changed := PrtsmRunr(b, t, i, env, dry, Now(b), Row(b.ports[i], b.trees[t].ptps));
  }
}
