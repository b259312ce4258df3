/** The Port Role Transitions state machine (section 13.34): one port run to rest. */
module RoleTransitions {
  import opened Types

  /** The values that a chain of transitions computes once, on its outermost call. */
  datatype Env = Env(maxAge: nat, fwdDelay: nat, forwardDelay: nat, hello: nat, rstp: bool, migrateTime: nat,
                     cist: bool)

  function EnvOf(cfg: Config, cistPtp: Ptp, prt: Port, cist: bool): Env {
    var hello := cistPtp.portTimes.hello;
    var fwd := cistPtp.designatedTimes.forwardDelay;
    Env(cistPtp.designatedTimes.maxAge, fwd, if prt.sendRSTP.On? then hello else fwd, hello,
        RstpVersion(cfg), cfg.migrateTime, cist)
  }

  /** A port together with the row of its tree. */
  datatype Row = Row(prt: Port, ptps: seq<Ptp>)

  predicate Active(p: Ptp) {
    p.selected.On? && p.updtInfo.Off?
  }

  /** Section 13.25.1. */
  predicate AllSynced(ptps: seq<Ptp>, i: nat)
    requires i < |ptps|
  {
    && (forall j :: 0 <= j < |ptps| ==> Active(ptps[j]) && ptps[j].role == ptps[j].selectedRole)
    && match ptps[i].role {
         case RoleRoot => forall j :: 0 <= j < |ptps| && ptps[j].role != RoleRoot ==> ptps[j].synced.On?
         case RoleAlternate => forall j :: 0 <= j < |ptps| && ptps[j].role != RoleRoot ==> ptps[j].synced.On?
         case RoleDesignated => forall j :: 0 <= j < |ptps| && j != i ==> ptps[j].synced.On?
         case RoleMaster => forall j :: 0 <= j < |ptps| && j != i ==> ptps[j].synced.On?
         case _ => false
       }
  }

  /** Section 17.20.10 of IEEE 802.1D-2004. */
  predicate ReRooted(ptps: seq<Ptp>, i: nat) {
    forall j :: 0 <= j < |ptps| && j != i ==> ptps[j].rrWhile == 0
  }

  // ---- Transition conditions ----

  function PortStateOf(r: Role): PrtsmState {
    match r
    case RoleDisabled => DisablePort
    case RoleMaster => MasterPort
    case RoleRoot => RootPort
    case RoleDesignated => DesignatedPort
    case RoleAlternate => BlockPort
    case RoleBackup => BlockPort
  }

  function MasterTarget(p: Ptp, prt: Port, allSynced: bool): Option<PrtsmState> {
    if !Active(p) then None
    else if p.reRoot.On? && p.rrWhile == 0 then Some(MasterRetired)
    else if (p.learning.Off? && p.forwarding.Off? && p.synced.Off?) || (p.agreed.On? && p.synced.Off?)
            || (prt.operEdge.On? && p.synced.Off?) || (p.sync.On? && p.synced.On?) then Some(MasterSynced)
    else if (allSynced && p.agree.Off?) || (p.proposed.On? && p.agree.On?) then Some(MasterAgreed)
    else if p.proposed.On? && p.agree.Off? then Some(MasterProposed)
    else if (p.fdWhile == 0 || allSynced) && p.learn.On? && p.forward.Off? then Some(MasterForward)
    else if (p.fdWhile == 0 || allSynced) && p.learn.Off? then Some(MasterLearn)
    else if ((p.sync.On? && p.synced.Off?) || (p.reRoot.On? && p.rrWhile != 0) || p.disputed.On?)
            && prt.operEdge.Off? && (p.learn.On? || p.forward.On?) then Some(MasterDiscard)
    else None
  }

  function RootTarget(p: Ptp, env: Env, allSynced: bool, reRooted: bool): Option<PrtsmState> {
    var mayOpen := p.fdWhile == 0 || (reRooted && p.rbWhile == 0 && env.rstp);
    if !Active(p) then None
    else if p.forward.Off? && p.reRoot.Off? then Some(Reroot)
    else if (p.agreed.On? && p.synced.Off?) || (p.sync.On? && p.synced.On?) then Some(RootSynced)
    else if (allSynced && p.agree.Off?) || (p.proposed.On? && p.agree.On?) then Some(RootAgreed)
    else if p.proposed.On? && p.agree.Off? then Some(RootProposed)
    else if mayOpen && p.learn.Off? then Some(RootLearn)
    else if mayOpen && p.forward.Off? then Some(RootForward)
    else if p.reRoot.On? && p.forward.On? then Some(Rerooted)
    else if p.rrWhile != env.fwdDelay then Some(RootPort)
    else None
  }

  function DesignatedTarget(p: Ptp, prt: Port, allSynced: bool): Option<PrtsmState> {
    var mayOpen := (p.fdWhile == 0 || p.agreed.On? || prt.operEdge.On?)
                   && (p.rrWhile == 0 || p.reRoot.Off?) && p.sync.Off? && prt.baInconsistent.Off?;
    if !Active(p) then None
    else if p.reRoot.On? && p.rrWhile == 0 then Some(DesignatedRetired)
    else if (p.learning.Off? && p.forwarding.Off? && p.synced.Off?) || (p.agreed.On? && p.synced.Off?)
            || (prt.operEdge.On? && p.synced.Off?) || (p.sync.On? && p.synced.On?) then Some(DesignatedSynced)
    else if allSynced && (p.proposed.On? || p.agree.Off?) then Some(DesignatedAgreed)
    else if p.forward.Off? && p.agreed.Off? && p.proposing.Off? && prt.operEdge.Off? then Some(DesignatedPropose)
    else if mayOpen && p.learn.Off? then Some(DesignatedLearn)
    else if mayOpen && p.forward.Off? then Some(DesignatedForward)
    else if ((p.sync.On? && p.synced.Off?) || (p.reRoot.On? && p.rrWhile != 0) || p.disputed.On?
             || prt.baInconsistent.On?)
            && prt.operEdge.Off? && (p.learn.On? || p.forward.On?) then Some(DesignatedDiscard)
    else None
  }

  function AlternateTarget(p: Ptp, env: Env, allSynced: bool): Option<PrtsmState> {
    if !Active(p) then None
    else if (allSynced && p.agree.Off?) || (p.proposed.On? && p.agree.On?) then Some(AlternateAgreed)
    else if p.proposed.On? && p.agree.Off? then Some(AlternateProposed)
    else if p.rbWhile != 2 * env.hello && p.role == RoleBackup then Some(BackupPort)
    else if p.fdWhile != env.forwardDelay || p.sync.On? || p.reRoot.On? || p.synced.Off? then Some(AlternatePort)
    else None
  }

  /** The state that the machine enters next, or None at rest: this is what a dry run tells. */
  function Target(p: Ptp, prt: Port, env: Env, allSynced: bool, reRooted: bool): Option<PrtsmState> {
    if p.role != p.selectedRole && Active(p) then Some(PortStateOf(p.selectedRole))
    else match p.prtsm
      case InitPort => Some(DisablePort)
      case DisablePort => if Active(p) && p.learning.Off? && p.forwarding.Off? then Some(DisabledPort) else None
      case DisabledPort =>
        if Active(p) && (p.sync.On? || p.reRoot.On? || p.synced.Off? || p.fdWhile != env.maxAge)
        then Some(DisabledPort) else None
      case MasterProposed | MasterAgreed | MasterSynced | MasterRetired | MasterForward | MasterLearn
        | MasterDiscard => Some(MasterPort)
      case MasterPort => MasterTarget(p, prt, allSynced)
      case RootProposed | RootAgreed | RootSynced | Reroot | RootForward | RootLearn | Rerooted => Some(RootPort)
      case RootPort => RootTarget(p, env, allSynced, reRooted)
      case DesignatedPropose | DesignatedAgreed | DesignatedSynced | DesignatedRetired | DesignatedForward
        | DesignatedLearn | DesignatedDiscard => Some(DesignatedPort)
      case DesignatedPort => DesignatedTarget(p, prt, allSynced)
      case BlockPort => if Active(p) && p.learning.Off? && p.forwarding.Off? then Some(AlternatePort) else None
      case BackupPort | AlternateProposed | AlternateAgreed => Some(AlternatePort)
      case AlternatePort => AlternateTarget(p, env, allSynced)
  }

  // ---- Entry actions ----

  /** What entering state `x` does to the port's own variables of the tree. */
  function Act(q: Ptp, x: PrtsmState, prt: Port, env: Env): Ptp {
    var p := q.(prtsm := x);
    match x
    case InitPort => p.(role := RoleDisabled, learn := Off, forward := Off, synced := Off, sync := On, reRoot := On,
                        rrWhile := env.fwdDelay, fdWhile := env.maxAge, rbWhile := 0)
    case DisablePort => p.(role := RoleDisabled, learn := Off, forward := Off)
    case DisabledPort => p.(fdWhile := env.maxAge, synced := On, rrWhile := 0, sync := Off, reRoot := Off)
    case MasterProposed => p.(sync := On, proposed := Off)
    case MasterAgreed => p.(proposed := Off, sync := Off, agree := On)
    case MasterSynced => p.(rrWhile := 0, synced := On, sync := Off)
    case MasterRetired => p.(reRoot := Off)
    case MasterForward => p.(forward := On, fdWhile := 0, agreed := prt.sendRSTP)
    case MasterLearn => p.(learn := On, fdWhile := env.forwardDelay)
    case MasterDiscard => p.(learn := Off, forward := Off, disputed := Off, fdWhile := env.forwardDelay)
    case MasterPort => p.(role := RoleMaster)
    case RootProposed => p.(sync := On, proposed := Off)
    case RootAgreed => p.(proposed := Off, sync := Off, agree := On)
    case RootSynced => p.(synced := On, sync := Off)
    case Reroot => p.(reRoot := On)
    case RootForward => p.(fdWhile := 0, forward := On)
    case RootLearn => p.(fdWhile := env.forwardDelay, learn := On)
    case Rerooted => p.(reRoot := Off)
    case RootPort => p.(role := RoleRoot, rrWhile := env.fwdDelay)
    case DesignatedPropose => p.(proposing := On)
    case DesignatedAgreed => p.(proposed := Off, sync := Off, agree := On)
    case DesignatedSynced => p.(rrWhile := 0, synced := On, sync := Off)
    case DesignatedRetired => p.(reRoot := Off)
    case DesignatedForward => p.(forward := On, fdWhile := 0, agreed := prt.sendRSTP)
    case DesignatedLearn => p.(learn := On, fdWhile := env.forwardDelay)
    case DesignatedDiscard => p.(learn := Off, forward := Off, disputed := Off, fdWhile := env.forwardDelay)
    case DesignatedPort => p.(role := RoleDesignated)
    case BlockPort => p.(role := q.selectedRole, learn := Off, forward := Off)
    case BackupPort => p.(rbWhile := 2 * env.hello)
    case AlternateProposed => p.(sync := On, proposed := Off)
    case AlternateAgreed => p.(proposed := Off, agree := On)
    case AlternatePort => p.(fdWhile := env.forwardDelay, synced := On, rrWhile := 0, sync := Off, reRoot := Off)
  }

  /** What it does to the port: information to send, and the delay before the port counts as an edge. */
  function ActPort(prt: Port, q: Ptp, x: PrtsmState, env: Env): Port {
    match x
    case RootAgreed => NewInfo(prt, env)
    case DesignatedAgreed => NewInfo(prt, env)
    case AlternateAgreed => NewInfo(prt, env)
    case DesignatedPropose =>
      if env.cist then
        prt.(newInfo := On,
             edgeDelayWhile := if prt.pointToPoint.On? then env.migrateTime else q.designatedTimes.maxAge)
      else NewInfo(prt, env)
    case _ => prt
  }

  function NewInfo(prt: Port, env: Env): Port {
    if env.cist then prt.(newInfo := On) else prt.(newInfoMsti := On)
  }

  /** What it does to the other ports of the tree (`setSyncTree`, `setReRootTree`). */
  function ActOther(q: Ptp, x: PrtsmState): Ptp {
    match x
    case MasterProposed => q.(sync := On)
    case RootProposed => q.(sync := On)
    case AlternateProposed => q.(sync := On)
    case Reroot => q.(reRoot := On)
    case _ => q
  }

  function Enter(row: Row, i: nat, x: PrtsmState, env: Env): (r: Row)
    requires i < |row.ptps|
    ensures |r.ptps| == |row.ptps|
  {
    Row(ActPort(row.prt, row.ptps[i], x, env),
        seq(|row.ptps|, j requires 0 <= j < |row.ptps| =>
              if j == i then Act(row.ptps[i], x, row.prt, env) else ActOther(row.ptps[j], x)))
  }

  function RowTarget(row: Row, i: nat, env: Env): Option<PrtsmState>
    requires i < |row.ptps|
  {
    Target(row.ptps[i], row.prt, env, AllSynced(row.ptps, i), ReRooted(row.ptps, i))
  }

  // ---- Termination ----

  datatype Family = FamDisabled | FamMaster | FamRoot | FamDesignated | FamBlocked

  function FamilyOf(x: PrtsmState): Family {
    match x
    case InitPort | DisablePort | DisabledPort => FamDisabled
    case MasterProposed | MasterAgreed | MasterSynced | MasterRetired | MasterForward | MasterLearn | MasterDiscard
      | MasterPort => FamMaster
    case RootProposed | RootAgreed | RootSynced | Reroot | RootForward | RootLearn | Rerooted | RootPort => FamRoot
    case DesignatedPropose | DesignatedAgreed | DesignatedSynced | DesignatedRetired | DesignatedForward
      | DesignatedLearn | DesignatedDiscard | DesignatedPort => FamDesignated
    case BlockPort | BackupPort | AlternateProposed | AlternateAgreed | AlternatePort => FamBlocked
  }

  predicate Fits(f: Family, r: Role) {
    match f
    case FamDisabled => r == RoleDisabled
    case FamMaster => r == RoleMaster
    case FamRoot => r == RoleRoot
    case FamDesignated => r == RoleDesignated
    case FamBlocked => r == RoleAlternate || r == RoleBackup
  }

  /** States in which the machine can come to rest. */
  predicate Resting(x: PrtsmState) {
    x == DisablePort || x == DisabledPort || x == RootPort || x == DesignatedPort || x == BlockPort
      || x == AlternatePort
  }

  function One(b: bool): nat {
    if b then 1 else 0
  }

  /** Work left for a Root Port: forwarding opens once, and reopening `reRoot` is paid for by it. */
  function RootWork(p: Ptp, env: Env): nat {
    2 * One(p.proposed.On?) + One(p.agree.Off?) + One(p.sync.On?) + One(p.synced.Off?) + One(p.learn.Off?)
    + 2 * One(p.forward.Off?) + One(if p.forward.Off? then p.reRoot.Off? else p.reRoot.On?)
    + One(p.rrWhile != env.fwdDelay)
  }

  /** Whether something other than a dispute keeps a Designated Port from opening. Never becomes true. */
  predicate Held(p: Ptp, prt: Port) {
    p.sync.On? || (p.reRoot.On? && p.rrWhile != 0) || prt.baInconsistent.On?
  }

  /** Work left for a Designated Port: while held it can only close, once released it can close again only
      by using up the dispute. */
  function DesignatedWork(p: Ptp, prt: Port): nat {
    (if Held(p, prt) then 3 + One(p.learn.On? || p.forward.On?) else One(p.learn.Off?) + One(p.forward.Off?))
    + 3 * One(p.disputed.On?) + One(p.synced.Off?) + One(p.sync.On?) + One(p.reRoot.On?)
    + One(p.proposed.On?) + One(p.agree.Off?) + One(p.proposing.Off?)
  }

  function AlternateWork(p: Ptp, env: Env): nat {
    2 * One(p.proposed.On?) + One(p.agree.Off?) + One(p.rbWhile != 2 * env.hello)
    + One(p.fdWhile != env.forwardDelay || p.sync.On? || p.reRoot.On? || p.synced.Off?)
  }

  function Measure(p: Ptp, prt: Port, env: Env): nat {
    var f := FamilyOf(p.prtsm);
    var passing := !Resting(p.prtsm) && p.prtsm != MasterPort;
    if !Active(p) then One(passing)
    else if p.role != p.selectedRole then 100
    else if p.prtsm == InitPort then 101
    else if (f == FamRoot || f == FamDesignated || f == FamMaster) && !Fits(f, p.role) then if passing then 101 else 102
    else match f
      case FamDisabled => if p.prtsm == DisablePort then 2
                          else One(p.sync.On? || p.reRoot.On? || p.synced.Off? || p.fdWhile != env.maxAge)
      case FamRoot => 2 * RootWork(p, env) + One(passing)
      case FamDesignated => 2 * DesignatedWork(p, prt) + One(passing)
      case FamBlocked => if p.prtsm == BlockPort then 20 else 2 * AlternateWork(p, env) + One(passing)
      case FamMaster => 0
  }

  /** What a transition leaves to be done: the port's own variables after entering `x`. */
  predicate Decreases(p: Ptp, prt: Port, env: Env, x: PrtsmState) {
    Measure(Act(p, x, prt, env), ActPort(prt, p, x, env), env) < Measure(p, prt, env)
  }

  lemma RootWorkDrops(p: Ptp, prt: Port, env: Env, allSynced: bool, reRooted: bool)
    requires RootTarget(p, env, allSynced, reRooted).Some?
    ensures var x := RootTarget(p, env, allSynced, reRooted).value;
            var q := Act(p, x, prt, env);
            RootWork(q, env) < RootWork(p, env) && FamilyOf(x) == FamRoot && (q.role == p.role || q.role == RoleRoot)
  {
    var x := RootTarget(p, env, allSynced, reRooted).value;
    var q := Act(p, x, prt, env);
    if x == Reroot { assert q == p.(prtsm := x, reRoot := On); }
    else if x == RootSynced { assert q == p.(prtsm := x, synced := On, sync := Off); }
    else if x == RootAgreed { assert q == p.(prtsm := x, proposed := Off, sync := Off, agree := On); }
    else if x == RootProposed { assert q == p.(prtsm := x, sync := On, proposed := Off); }
    else if x == RootLearn { assert q == p.(prtsm := x, fdWhile := env.forwardDelay, learn := On); }
    else if x == RootForward { assert q == p.(prtsm := x, fdWhile := 0, forward := On); }
    else if x == Rerooted { assert q == p.(prtsm := x, reRoot := Off); }
    else { assert x == RootPort && q == p.(prtsm := x, role := RoleRoot, rrWhile := env.fwdDelay); }
  }

  lemma DesignatedWorkDrops(p: Ptp, prt: Port, env: Env, allSynced: bool)
    requires DesignatedTarget(p, prt, allSynced).Some?
    ensures var x := DesignatedTarget(p, prt, allSynced).value;
            var q := Act(p, x, prt, env);
            && DesignatedWork(q, ActPort(prt, p, x, env)) < DesignatedWork(p, prt)
            && FamilyOf(x) == FamDesignated && !Resting(x) && q.role == p.role
  {
    var x := DesignatedTarget(p, prt, allSynced).value;
    var q := Act(p, x, prt, env);
    if x == DesignatedRetired { assert q == p.(prtsm := x, reRoot := Off); }
    else if x == DesignatedSynced { assert q == p.(prtsm := x, rrWhile := 0, synced := On, sync := Off); }
    else if x == DesignatedAgreed { assert q == p.(prtsm := x, proposed := Off, sync := Off, agree := On); }
    else if x == DesignatedPropose { assert q == p.(prtsm := x, proposing := On); }
    else if x == DesignatedLearn { assert q == p.(prtsm := x, learn := On, fdWhile := env.forwardDelay); }
    else if x == DesignatedForward { assert q == p.(prtsm := x, forward := On, fdWhile := 0, agreed := prt.sendRSTP); }
    else {
      assert x == DesignatedDiscard
          && q == p.(prtsm := x, learn := Off, forward := Off, disputed := Off, fdWhile := env.forwardDelay);
    }
  }

  lemma AlternateWorkDrops(p: Ptp, prt: Port, env: Env, allSynced: bool)
    requires AlternateTarget(p, env, allSynced).Some?
    ensures var x := AlternateTarget(p, env, allSynced).value;
            var q := Act(p, x, prt, env);
            AlternateWork(q, env) < AlternateWork(p, env) && FamilyOf(x) == FamBlocked && x != BlockPort
              && q.role == p.role
  {
    var x := AlternateTarget(p, env, allSynced).value;
    var q := Act(p, x, prt, env);
    if x == AlternateAgreed { assert q == p.(prtsm := x, proposed := Off, agree := On); }
    else if x == AlternateProposed { assert q == p.(prtsm := x, sync := On, proposed := Off); }
    else if x == BackupPort { assert q == p.(prtsm := x, rbWhile := 2 * env.hello); }
    else {
      assert x == AlternatePort
          && q == p.(prtsm := x, fdWhile := env.forwardDelay, synced := On, rrWhile := 0, sync := Off, reRoot := Off);
    }
  }

  /** Entering a state changes neither the request to select nor the selected role. */
  lemma ActKeepsSelection(p: Ptp, prt: Port, env: Env, x: PrtsmState)
    ensures var q := Act(p, x, prt, env);
            && q.prtsm == x && q.selected == p.selected && q.updtInfo == p.updtInfo && q.selectedRole == p.selectedRole
            && q.learning == p.learning && q.forwarding == p.forwarding
    ensures var r := ActPort(prt, p, x, env);
            r.operEdge == prt.operEdge && r.baInconsistent == prt.baInconsistent && r.sendRSTP == prt.sendRSTP
  {
  }

  /** Leaving a state that is only passed through. */
  lemma PassingDecreases(p: Ptp, prt: Port, env: Env, x: PrtsmState)
    requires p.selectedRole != RoleMaster && (Active(p) ==> p.role == p.selectedRole)
    requires !Resting(p.prtsm) && p.prtsm != MasterPort
    requires x == match FamilyOf(p.prtsm) {
                    case FamDisabled => DisablePort
                    case FamMaster => MasterPort
                    case FamRoot => RootPort
                    case FamDesignated => DesignatedPort
                    case FamBlocked => AlternatePort
                  }
    ensures Decreases(p, prt, env, x)
  {
    match FamilyOf(p.prtsm)
    case FamRoot => PassingToRoot(p, prt, env);
    case FamDesignated => PassingToDesignated(p, prt, env);
    case FamBlocked => PassingToAlternate(p, prt, env);
    case FamDisabled =>
      assert Act(p, x, prt, env) == p.(prtsm := x, role := RoleDisabled, learn := Off, forward := Off);
    case FamMaster => assert Act(p, x, prt, env) == p.(prtsm := x, role := RoleMaster);
  }

  lemma PassingToRoot(p: Ptp, prt: Port, env: Env)
    requires p.selectedRole != RoleMaster && (Active(p) ==> p.role == p.selectedRole)
    requires !Resting(p.prtsm) && FamilyOf(p.prtsm) == FamRoot
    ensures Decreases(p, prt, env, RootPort)
  {
    assert Act(p, RootPort, prt, env) == p.(prtsm := RootPort, role := RoleRoot, rrWhile := env.fwdDelay);
  }

  lemma PassingToDesignated(p: Ptp, prt: Port, env: Env)
    requires p.selectedRole != RoleMaster && (Active(p) ==> p.role == p.selectedRole)
    requires !Resting(p.prtsm) && FamilyOf(p.prtsm) == FamDesignated
    ensures Decreases(p, prt, env, DesignatedPort)
  {
    assert Act(p, DesignatedPort, prt, env) == p.(prtsm := DesignatedPort, role := RoleDesignated);
  }

  lemma PassingToAlternate(p: Ptp, prt: Port, env: Env)
    requires p.selectedRole != RoleMaster && (Active(p) ==> p.role == p.selectedRole)
    requires !Resting(p.prtsm) && FamilyOf(p.prtsm) == FamBlocked
    ensures Decreases(p, prt, env, AlternatePort)
  {
    assert Act(p, AlternatePort, prt, env)
        == p.(prtsm := AlternatePort, fdWhile := env.forwardDelay, synced := On, rrWhile := 0, sync := Off,
              reRoot := Off);
  }

  /** Taking up a newly selected role. */
  lemma RoleChangeDecreases(p: Ptp, prt: Port, env: Env)
    requires p.selectedRole != RoleMaster && Active(p) && p.role != p.selectedRole
    ensures Decreases(p, prt, env, PortStateOf(p.selectedRole))
  {
    var x := PortStateOf(p.selectedRole);
    var q := Act(p, x, prt, env);
    if x == DisablePort { assert q == p.(prtsm := x, role := RoleDisabled, learn := Off, forward := Off); }
    else if x == RootPort { assert q == p.(prtsm := x, role := RoleRoot, rrWhile := env.fwdDelay); }
    else if x == DesignatedPort { assert q == p.(prtsm := x, role := RoleDesignated); }
    else { assert q == p.(prtsm := x, role := p.selectedRole, learn := Off, forward := Off); }
  }

  lemma MasterStepKeepsRole(p: Ptp, prt: Port, env: Env, allSynced: bool)
    requires MasterTarget(p, prt, allSynced).Some?
    ensures var x := MasterTarget(p, prt, allSynced).value;
            FamilyOf(x) == FamMaster && !Resting(x) && x != MasterPort && Act(p, x, prt, env).role == p.role
  {
  }

  /** A blocked or disabled port starts over its final state. */
  lemma SettlingDecreases(p: Ptp, prt: Port, env: Env, allSynced: bool, reRooted: bool)
    requires p.selectedRole != RoleMaster && Active(p) && p.role == p.selectedRole
    requires p.prtsm == DisablePort || p.prtsm == DisabledPort || p.prtsm == BlockPort
    requires Target(p, prt, env, allSynced, reRooted).Some?
    ensures Decreases(p, prt, env, Target(p, prt, env, allSynced, reRooted).value)
  {
    var x := if p.prtsm == BlockPort then AlternatePort else DisabledPort;
    assert Target(p, prt, env, allSynced, reRooted) == Some(x);
    assert Act(p, x, prt, env)
        == p.(prtsm := x, fdWhile := if x == DisabledPort then env.maxAge else env.forwardDelay,
              synced := On, rrWhile := 0, sync := Off, reRoot := Off);
  }

  /** Less work in the same family of states is a smaller measure. */
  lemma LessWorkMeasures(p: Ptp, prt: Port, q: Ptp, r: Port, env: Env)
    requires Active(p) && Active(q) && p.role == p.selectedRole == q.selectedRole
    requires FamilyOf(q.prtsm) == FamilyOf(p.prtsm)
    requires p.prtsm == RootPort || p.prtsm == DesignatedPort || p.prtsm == AlternatePort || p.prtsm == MasterPort
    requires match p.prtsm
             case RootPort => RootWork(q, env) < RootWork(p, env) && (q.role == p.role || q.role == RoleRoot)
                              && (q.prtsm == RootPort ==> q.role == RoleRoot)
             case DesignatedPort => DesignatedWork(q, r) < DesignatedWork(p, prt) && q.role == p.role
               && q.prtsm != DesignatedPort
             case AlternatePort => AlternateWork(q, env) < AlternateWork(p, env) && q.role == p.role
               && q.prtsm != BlockPort
             case _ => p.role != RoleMaster && q.role == p.role && q.prtsm != MasterPort
    ensures Measure(q, r, env) < Measure(p, prt, env)
  {
  }

  /** Transitions of a port at one of the states with conditions. */
  lemma ConditionalDecreases(p: Ptp, prt: Port, env: Env, allSynced: bool, reRooted: bool)
    requires p.selectedRole != RoleMaster && Active(p) && p.role == p.selectedRole
    requires p.prtsm == RootPort || p.prtsm == DesignatedPort || p.prtsm == AlternatePort || p.prtsm == MasterPort
    requires Target(p, prt, env, allSynced, reRooted).Some?
    ensures Decreases(p, prt, env, Target(p, prt, env, allSynced, reRooted).value)
  {
    var x := Target(p, prt, env, allSynced, reRooted).value;
    var q, r := Act(p, x, prt, env), ActPort(prt, p, x, env);
    ActKeepsSelection(p, prt, env, x);
    if p.prtsm == RootPort {
      RootWorkDrops(p, prt, env, allSynced, reRooted);
    } else if p.prtsm == DesignatedPort {
      DesignatedWorkDrops(p, prt, env, allSynced);
    } else if p.prtsm == AlternatePort {
      AlternateWorkDrops(p, prt, env, allSynced);
    } else {
      MasterStepKeepsRole(p, prt, env, allSynced);
    }
    LessWorkMeasures(p, prt, q, r, env);
  }

  /** Every transition of a port that is not to become Master uses up work. */
  lemma StepDecreases(p: Ptp, prt: Port, env: Env, allSynced: bool, reRooted: bool)
    requires p.selectedRole != RoleMaster
    requires Target(p, prt, env, allSynced, reRooted).Some?
    ensures Decreases(p, prt, env, Target(p, prt, env, allSynced, reRooted).value)
  {
    if Active(p) && p.role != p.selectedRole {
      RoleChangeDecreases(p, prt, env);
    } else if !Resting(p.prtsm) && p.prtsm != MasterPort {
      PassingDecreases(p, prt, env, Target(p, prt, env, allSynced, reRooted).value);
    } else if p.prtsm == DisablePort || p.prtsm == DisabledPort || p.prtsm == BlockPort {
      SettlingDecreases(p, prt, env, allSynced, reRooted);
    } else {
      ConditionalDecreases(p, prt, env, allSynced, reRooted);
    }
  }

  // ---- The machine run to rest ----

  function Rest(row: Row, i: nat, env: Env): (r: Row)
    requires i < |row.ptps| && row.ptps[i].selectedRole != RoleMaster
    ensures |r.ptps| == |row.ptps|
    decreases Measure(row.ptps[i], row.prt, env)
  {
    var t := RowTarget(row, i, env);
    if t.None? then row
    else
      StepDecreases(row.ptps[i], row.prt, env, AllSynced(row.ptps, i), ReRooted(row.ptps, i));
      ActKeepsSelection(row.ptps[i], row.prt, env, t.value);
      Rest(Enter(row, i, t.value, env), i, env)
  }

  /** `forward` implies `learn`, the state belongs to the role, and a port that is Disabled, Alternate
      or Backup has neither. */
  predicate PortInv(p: Ptp) {
    && (p.forward.On? ==> p.learn.On?)
    && Fits(FamilyOf(p.prtsm), p.role)
    && (FamilyOf(p.prtsm) == FamDisabled || FamilyOf(p.prtsm) == FamBlocked ==> p.learn.Off? && p.forward.Off?)
  }

  predicate Opens(x: PrtsmState) {
    x == RootForward || x == DesignatedForward || x == MasterForward
  }

  /** A transition either takes up the selected role or stays within the family of states; forwarding is
      opened only after learning. */
  lemma TargetShape(p: Ptp, prt: Port, env: Env, allSynced: bool, reRooted: bool)
    requires Target(p, prt, env, allSynced, reRooted).Some?
    ensures var x := Target(p, prt, env, allSynced, reRooted).value;
            || x == PortStateOf(p.selectedRole)
            || (FamilyOf(x) == FamilyOf(p.prtsm) && x != BlockPort && (Opens(x) ==> p.learn.On?))
  {
    var x := Target(p, prt, env, allSynced, reRooted).value;
    if p.role == p.selectedRole || !Active(p) {
      match p.prtsm
      case MasterPort => assert FamilyOf(x) == FamMaster;
      case RootPort => assert FamilyOf(x) == FamRoot;
      case DesignatedPort => assert FamilyOf(x) == FamDesignated;
      case AlternatePort => assert FamilyOf(x) == FamBlocked && x != BlockPort;
      case _ => assert FamilyOf(x) == FamilyOf(p.prtsm) && !Opens(x) && x != BlockPort;
    }
  }

  lemma WithinFamilyKeepsInv(p: Ptp, x: PrtsmState, prt: Port, env: Env)
    requires PortInv(p) && FamilyOf(x) == FamilyOf(p.prtsm) && x != BlockPort && (Opens(x) ==> p.learn.On?)
    ensures PortInv(Act(p, x, prt, env))
  {
    var q := Act(p, x, prt, env);
    if FamilyOf(x) == FamRoot {
      assert q.role == RoleRoot;
    } else if FamilyOf(x) == FamDesignated {
      assert q.role == RoleDesignated;
    } else if FamilyOf(x) == FamMaster {
      assert q.role == RoleMaster;
    } else {
      assert q.role == p.role && q.learn.Off? && q.forward.Off?;
    }
  }

  lemma StepKeepsInv(p: Ptp, prt: Port, env: Env, allSynced: bool, reRooted: bool)
    requires PortInv(p) && Target(p, prt, env, allSynced, reRooted).Some?
    ensures PortInv(Act(p, Target(p, prt, env, allSynced, reRooted).value, prt, env))
  {
    var x := Target(p, prt, env, allSynced, reRooted).value;
    TargetShape(p, prt, env, allSynced, reRooted);
    if x != PortStateOf(p.selectedRole) {
      WithinFamilyKeepsInv(p, x, prt, env);
    }
  }

  /** The machine leaves the Master states alone unless the Master role was selected. */
  lemma StepAvoidsMaster(p: Ptp, prt: Port, env: Env, allSynced: bool, reRooted: bool)
    requires p.selectedRole != RoleMaster && FamilyOf(p.prtsm) != FamMaster
    requires Target(p, prt, env, allSynced, reRooted).Some?
    ensures FamilyOf(Target(p, prt, env, allSynced, reRooted).value) != FamMaster
  {
  }

  /** What a port on its selected role has achieved once nothing is left to do. */
  predicate Settled(row: Row, i: nat, env: Env)
    requires i < |row.ptps|
  {
    var p := row.ptps[i];
    match p.prtsm
    case DisabledPort => p.fdWhile == env.maxAge && p.synced.On? && p.sync.Off? && p.reRoot.Off?
    case RootPort =>
      && p.rrWhile == env.fwdDelay && p.proposed.Off? && (p.synced.On? ==> p.sync.Off?)
      && (AllSynced(row.ptps, i) ==> p.agree.On?) && (p.forward.On? <==> p.reRoot.Off?)
      && (ReRooted(row.ptps, i) && p.rbWhile == 0 && env.rstp ==> p.learn.On? && p.forward.On?)
    case DesignatedPort =>
      && (p.synced.On? ==> p.sync.Off?) && (AllSynced(row.ptps, i) ==> p.agree.On? && p.proposed.Off?)
      && (row.prt.baInconsistent.On? && row.prt.operEdge.Off? ==> p.learn.Off? && p.forward.Off?)
    case AlternatePort =>
      && p.fdWhile == env.forwardDelay && p.synced.On? && p.sync.Off? && p.reRoot.Off?
      && p.proposed.Off? && (p.role == RoleBackup ==> p.rbWhile == 2 * env.hello)
    case _ => p.learning.On? || p.forwarding.On?
  }

  /** Run to rest the machine stops in one of six states, with nothing left to do: a dry run directly
      afterwards reports no change. If roles are settled the port has taken up its selected role. */
  lemma {:induction false} RestComesToRest(row: Row, i: nat, env: Env)
    requires i < |row.ptps| && row.ptps[i].selectedRole != RoleMaster && FamilyOf(row.ptps[i].prtsm) != FamMaster
    ensures var r := Rest(row, i, env);
            && RowTarget(r, i, env).None?
            && Resting(r.ptps[i].prtsm)
            && (Active(r.ptps[i]) ==> r.ptps[i].role == r.ptps[i].selectedRole && Settled(r, i, env))
    decreases Measure(row.ptps[i], row.prt, env)
  {
    if RowTarget(row, i, env).Some? {
      var next := RestStep(row, i, env);
      RestComesToRest(next, i, env);
    }
  }

  /** One transition of a run to rest. */
  lemma RestStep(row: Row, i: nat, env: Env) returns (next: Row)
    requires i < |row.ptps| && row.ptps[i].selectedRole != RoleMaster && FamilyOf(row.ptps[i].prtsm) != FamMaster
    requires RowTarget(row, i, env).Some?
    ensures |next.ptps| == |row.ptps| && next.ptps[i].selectedRole != RoleMaster
    ensures FamilyOf(next.ptps[i].prtsm) != FamMaster && Rest(row, i, env) == Rest(next, i, env)
    ensures Measure(next.ptps[i], next.prt, env) < Measure(row.ptps[i], row.prt, env)
  {
    var x := RowTarget(row, i, env).value;
    StepDecreases(row.ptps[i], row.prt, env, AllSynced(row.ptps, i), ReRooted(row.ptps, i));
    ActKeepsSelection(row.ptps[i], row.prt, env, x);
    StepAvoidsMaster(row.ptps[i], row.prt, env, AllSynced(row.ptps, i), ReRooted(row.ptps, i));
    next := Enter(row, i, x, env);
  }

  /** The dry run, which reports whether there is a transition, reports a change exactly when the run makes one. */
  lemma DryIffChange(row: Row, i: nat, env: Env)
    requires i < |row.ptps| && row.ptps[i].selectedRole != RoleMaster
    ensures RowTarget(row, i, env).Some? <==> Rest(row, i, env) != row
  {
    if RowTarget(row, i, env).Some? { RestLowersMeasure(row, i, env); }
  }

  lemma {:induction false} RestLowersMeasure(row: Row, i: nat, env: Env)
    requires i < |row.ptps| && row.ptps[i].selectedRole != RoleMaster && RowTarget(row, i, env).Some?
    ensures var r := Rest(row, i, env); Measure(r.ptps[i], r.prt, env) < Measure(row.ptps[i], row.prt, env)
    decreases Measure(row.ptps[i], row.prt, env)
  {
    StepDecreases(row.ptps[i], row.prt, env, AllSynced(row.ptps, i), ReRooted(row.ptps, i));
    var x := RowTarget(row, i, env).value;
    ActKeepsSelection(row.ptps[i], row.prt, env, x);
    var next := Enter(row, i, x, env);
    if RowTarget(next, i, env).Some? { RestLowersMeasure(next, i, env); }
  }

  /** The invariant of a port survives a run. */
  lemma {:induction false} RestKeepsInv(row: Row, i: nat, env: Env)
    requires i < |row.ptps| && row.ptps[i].selectedRole != RoleMaster && PortInv(row.ptps[i])
    ensures PortInv(Rest(row, i, env).ptps[i])
    decreases Measure(row.ptps[i], row.prt, env)
  {
    var t := RowTarget(row, i, env);
    if t.Some? {
      StepDecreases(row.ptps[i], row.prt, env, AllSynced(row.ptps, i), ReRooted(row.ptps, i));
      ActKeepsSelection(row.ptps[i], row.prt, env, t.value);
      StepKeepsInv(row.ptps[i], row.prt, env, AllSynced(row.ptps, i), ReRooted(row.ptps, i));
      RestKeepsInv(Enter(row, i, t.value, env), i, env);
    }
  }

  // ---- What a run may change ----

  /** `q` differs from `p` at most in the variables that the machine owns. */
  predicate OwnFrame(p: Ptp, q: Ptp) {
    q == p.(prtsm := q.prtsm, role := q.role, learn := q.learn, forward := q.forward, disputed := q.disputed,
            agree := q.agree, agreed := q.agreed, proposed := q.proposed, proposing := q.proposing,
            sync := q.sync, synced := q.synced, reRoot := q.reRoot,
            fdWhile := q.fdWhile, rrWhile := q.rrWhile, rbWhile := q.rbWhile)
  }

  /** A run raises only `sync` and `reRoot` of the other ports. */
  predicate OtherFrame(p: Ptp, q: Ptp) {
    && q == p.(sync := q.sync, reRoot := q.reRoot)
    && (p.sync.On? ==> q.sync.On?) && (p.reRoot.On? ==> q.reRoot.On?)
  }

  predicate PortFrame(a: Port, b: Port) {
    b == a.(newInfo := b.newInfo, newInfoMsti := b.newInfoMsti, edgeDelayWhile := b.edgeDelayWhile)
    && (a.newInfo.On? ==> b.newInfo.On?) && (a.newInfoMsti.On? ==> b.newInfoMsti.On?)
  }

  ghost predicate Framed(row: Row, r: Row, i: nat)
    requires i < |row.ptps|
  {
    && |r.ptps| == |row.ptps| && PortFrame(row.prt, r.prt) && OwnFrame(row.ptps[i], r.ptps[i])
    && forall j :: 0 <= j < |row.ptps| && j != i ==> OtherFrame(row.ptps[j], r.ptps[j])
  }

  lemma ActFrame(p: Ptp, x: PrtsmState, prt: Port, env: Env)
    ensures OwnFrame(p, Act(p, x, prt, env))
  {
  }

  lemma ActOtherFrame(p: Ptp, x: PrtsmState)
    ensures OtherFrame(p, ActOther(p, x))
  {
  }

  lemma ActPortFrame(p: Ptp, x: PrtsmState, prt: Port, env: Env)
    ensures PortFrame(prt, ActPort(prt, p, x, env))
  {
  }

  lemma EnterIsFramed(row: Row, i: nat, x: PrtsmState, env: Env)
    requires i < |row.ptps|
    ensures Framed(row, Enter(row, i, x, env), i)
  {
    forall j | 0 <= j < |row.ptps|
      ensures OtherFrame(row.ptps[j], ActOther(row.ptps[j], x))
    {
      ActOtherFrame(row.ptps[j], x);
    }
    ActFrame(row.ptps[i], x, row.prt, env);
    ActPortFrame(row.ptps[i], x, row.prt, env);
  }

  lemma FramesCompose(a: Row, b: Row, c: Row, i: nat)
    requires i < |a.ptps| && Framed(a, b, i) && Framed(b, c, i)
    ensures Framed(a, c, i)
  {
    forall j | 0 <= j < |a.ptps| && j != i
      ensures OtherFrame(a.ptps[j], c.ptps[j])
    {
      assert OtherFrame(a.ptps[j], b.ptps[j]) && OtherFrame(b.ptps[j], c.ptps[j]);
    }
  }

  lemma {:induction false} RestIsFramed(row: Row, i: nat, env: Env)
    requires i < |row.ptps| && row.ptps[i].selectedRole != RoleMaster
    ensures Framed(row, Rest(row, i, env), i)
    decreases Measure(row.ptps[i], row.prt, env)
  {
    var t := RowTarget(row, i, env);
    if t.Some? {
      StepDecreases(row.ptps[i], row.prt, env, AllSynced(row.ptps, i), ReRooted(row.ptps, i));
      ActKeepsSelection(row.ptps[i], row.prt, env, t.value);
      var next := Enter(row, i, t.value, env);
      EnterIsFramed(row, i, t.value, env);
      RestIsFramed(next, i, env);
      FramesCompose(row, next, Rest(next, i, env), i);
    }
  }

  // ---- Agreement is given only when the rest of the tree is in sync ----

  /** Every other port of the tree has settled its role and is in sync; a Root or Alternate Port need not wait
      for the Root Port. */
  ghost predicate OthersInSync(ptps: seq<Ptp>, i: nat, role: Role) {
    forall j :: 0 <= j < |ptps| && j != i ==>
      && Active(ptps[j]) && ptps[j].role == ptps[j].selectedRole
      && (ptps[j].synced.On? || (ptps[j].role == RoleRoot && (role == RoleRoot || role == RoleAlternate)))
  }

  lemma AgreeStep(row: Row, i: nat, env: Env)
    requires i < |row.ptps| && RowTarget(row, i, env).Some? && PortInv(row.ptps[i])
    requires row.ptps[i].agree.Off? && Act(row.ptps[i], RowTarget(row, i, env).value, row.prt, env).agree.On?
    ensures Active(row.ptps[i]) && OthersInSync(row.ptps, i, row.ptps[i].selectedRole)
  {
    AgreeNeedsAllSynced(row.ptps[i], row.prt, env, AllSynced(row.ptps, i), ReRooted(row.ptps, i));
  }

  predicate Agreeing(x: PrtsmState) {
    x == MasterAgreed || x == RootAgreed || x == DesignatedAgreed || x == AlternateAgreed
  }

  lemma ActAgrees(p: Ptp, x: PrtsmState, prt: Port, env: Env)
    ensures Act(p, x, prt, env).agree == if Agreeing(x) then On else p.agree
  {
  }

  lemma AgreeNeedsAllSynced(p: Ptp, prt: Port, env: Env, allSynced: bool, reRooted: bool)
    requires Target(p, prt, env, allSynced, reRooted).Some?
    requires p.agree.Off? && Act(p, Target(p, prt, env, allSynced, reRooted).value, prt, env).agree.On?
    ensures allSynced
  {
    ActAgrees(p, Target(p, prt, env, allSynced, reRooted).value, prt, env);
  }

  /** A run that raises `agree` found every other port of the tree in sync, on the role it was selected for. */
  lemma {:induction false} AgreementNeedsSync(row: Row, i: nat, env: Env)
    requires i < |row.ptps| && row.ptps[i].selectedRole != RoleMaster && PortInv(row.ptps[i])
    requires row.ptps[i].agree.Off? && Rest(row, i, env).ptps[i].agree.On?
    ensures Active(row.ptps[i]) && OthersInSync(row.ptps, i, row.ptps[i].selectedRole)
    decreases Measure(row.ptps[i], row.prt, env)
  {
    var t := RowTarget(row, i, env);
    StepDecreases(row.ptps[i], row.prt, env, AllSynced(row.ptps, i), ReRooted(row.ptps, i));
    ActKeepsSelection(row.ptps[i], row.prt, env, t.value);
    var next := Enter(row, i, t.value, env);
    if next.ptps[i].agree.On? {
      AgreeStep(row, i, env);
    } else {
      StepKeepsInv(row.ptps[i], row.prt, env, AllSynced(row.ptps, i), ReRooted(row.ptps, i));
      AgreementNeedsSync(next, i, env);
      EnterIsFramed(row, i, t.value, env);
    }
  }

  // ---- What is agreed or proposed is also announced ----

  predicate Announced(prt: Port, cist: bool) {
    if cist then prt.newInfo.On? else prt.newInfoMsti.On?
  }

  lemma AnnouncingStep(p: Ptp, prt: Port, env: Env, x: PrtsmState)
    requires FamilyOf(x) != FamMaster
    ensures var q := Act(p, x, prt, env);
            (p.agree.Off? && q.agree.On?) || (p.proposing.Off? && q.proposing.On?) ==>
              Announced(ActPort(prt, p, x, env), env.cist)
  {
  }

  /** A run that raises `agree` or `proposing` also raises the request to transmit. */
  lemma {:induction false} RaisedFlagsAreAnnounced(row: Row, i: nat, env: Env)
    requires i < |row.ptps| && row.ptps[i].selectedRole != RoleMaster && FamilyOf(row.ptps[i].prtsm) != FamMaster
    ensures var p, r := row.ptps[i], Rest(row, i, env);
            (p.agree.Off? && r.ptps[i].agree.On?) || (p.proposing.Off? && r.ptps[i].proposing.On?) ==>
              Announced(r.prt, env.cist)
    decreases Measure(row.ptps[i], row.prt, env)
  {
    var t := RowTarget(row, i, env);
    if t.Some? {
      StepDecreases(row.ptps[i], row.prt, env, AllSynced(row.ptps, i), ReRooted(row.ptps, i));
      ActKeepsSelection(row.ptps[i], row.prt, env, t.value);
      StepAvoidsMaster(row.ptps[i], row.prt, env, AllSynced(row.ptps, i), ReRooted(row.ptps, i));
      AnnouncingStep(row.ptps[i], row.prt, env, t.value);
      var next := Enter(row, i, t.value, env);
      RaisedFlagsAreAnnounced(next, i, env);
      RestIsFramed(next, i, env);
    }
  }
}
