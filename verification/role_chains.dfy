/** Exactly when a chain of role transitions ends: always, except for a family of Master Ports that open and close for
    ever. */
module RoleChains {
  import opened Types
  import opened RoleTransitions

  // ---- The chain ----

  /** The row after `n` transitions of port `i`, or where the chain ended before. */
  ghost function Iterated(row: Row, i: nat, env: Env, n: nat): (r: Row)
    requires i < |row.ptps|
    ensures |r.ptps| == |row.ptps|
    decreases n
  {
    var x := RowTarget(row, i, env);
    if n == 0 || x.None? then row else Iterated(Enter(row, i, x.value, env), i, env, n - 1)
  }

  ghost predicate EndsAfter(row: Row, i: nat, env: Env, n: nat)
    requires i < |row.ptps|
  {
    RowTarget(Iterated(row, i, env, n), i, env).None?
  }

  /** However long the chain, it changes only what the machine owns. */
  lemma {:induction false} ChainIsFramed(row: Row, i: nat, env: Env, n: nat)
    requires i < |row.ptps|
    ensures Framed(row, Iterated(row, i, env, n), i)
    decreases n
  {
    var x := RowTarget(row, i, env);
    if n > 0 && x.Some? {
      EnterIsFramed(row, i, x.value, env);
      var next := Enter(row, i, x.value, env);
      ChainIsFramed(next, i, env, n - 1);
      FramesCompose(row, next, Iterated(next, i, env, n - 1), i);
    }
  }

  /** The outermost call of a chain computes some values once, from the port and its CIST entry, which is the port's own
      entry on the CIST and an entry of another tree on an MSTI. At every later call they are what a fresh call would
      compute. */
  lemma CachedValuesStayCurrent(cfg: Config, cistPtp: Ptp, row: Row, i: nat, cist: bool, env: Env, n: nat)
    requires i < |row.ptps|
    ensures var r := Iterated(row, i, env, n);
            EnvOf(cfg, if cist then r.ptps[i] else cistPtp, r.prt, cist)
            == EnvOf(cfg, if cist then row.ptps[i] else cistPtp, row.prt, cist)
  {
    ChainIsFramed(row, i, env, n);
    SameEnv(cfg, cistPtp, row, Iterated(row, i, env, n), i, cist);
  }

  lemma SameEnv(cfg: Config, cistPtp: Ptp, row: Row, r: Row, i: nat, cist: bool)
    requires i < |row.ptps| && Framed(row, r, i)
    ensures EnvOf(cfg, if cist then r.ptps[i] else cistPtp, r.prt, cist)
            == EnvOf(cfg, if cist then row.ptps[i] else cistPtp, row.prt, cist)
  {
  }

  // ---- The family that does not end ----

  /** `sync` of a Master Port once its proposal and its agreement have been dealt with. */
  function SyncAfter(p: Ptp, allSynced: bool): Flag {
    if (allSynced && p.agree.Off?) || (p.proposed.On? && p.agree.On?) then Off
    else if p.proposed.On? then On
    else p.sync
  }

  /** MASTER_SYNCED, which would stop the re-root timer, is never entered. */
  predicate NeverSyncs(p: Ptp, prt: Port, allSynced: bool) {
    if p.synced.On? then p.sync.Off? && SyncAfter(p, allSynced).Off?
    else (p.learning.On? || p.forwarding.On?) && p.agreed.Off? && prt.sendRSTP.Off? && prt.operEdge.Off?
  }

  /** Something keeps closing the port, and something opens it again without delay. */
  predicate Spins(p: Ptp, prt: Port, env: Env, allSynced: bool) {
    && Active(p) && prt.operEdge.Off? && NeverSyncs(p, prt, allSynced)
    && ((SyncAfter(p, allSynced).On? && p.synced.Off?) || (p.reRoot.On? && p.rrWhile != 0))
    && (allSynced || (env.forwardDelay == 0 && (p.fdWhile == 0 || p.learn.On? || p.forward.On?)))
  }

  /** allSynced as it is once the port has the Master role. */
  predicate SyncedAsMaster(ptps: seq<Ptp>, i: nat)
    requires i < |ptps|
  {
    AllSynced(ptps[i := ptps[i].(role := RoleMaster)], i)
  }

  predicate RowSpins(row: Row, i: nat, env: Env)
    requires i < |row.ptps|
  {
    row.ptps[i].selectedRole == RoleMaster && Spins(row.ptps[i], row.prt, env, SyncedAsMaster(row.ptps, i))
  }

  // ---- Steps of a Master Port ----

  /** A transition neither enters nor leaves the family. */
  lemma StepKeepsSpinning(p: Ptp, prt: Port, env: Env, allSynced: bool)
    requires MasterTarget(p, prt, allSynced).Some?
    ensures var x := MasterTarget(p, prt, allSynced).value;
            Spins(Act(p, x, prt, env), prt, env, allSynced) <==> Spins(p, prt, env, allSynced)
  {
    var x := MasterTarget(p, prt, allSynced).value;
    var q := Act(p, x, prt, env);
    match x
    case MasterRetired => assert q == p.(prtsm := x, reRoot := Off);
    case MasterSynced => assert q == p.(prtsm := x, rrWhile := 0, synced := On, sync := Off);
    case MasterAgreed => assert q == p.(prtsm := x, proposed := Off, sync := Off, agree := On);
    case MasterProposed => assert q == p.(prtsm := x, sync := On, proposed := Off);
    case MasterForward => assert q == p.(prtsm := x, forward := On, fdWhile := 0, agreed := prt.sendRSTP);
    case MasterLearn => assert q == p.(prtsm := x, learn := On, fdWhile := env.forwardDelay);
    case MasterDiscard =>
      assert q == p.(prtsm := x, learn := Off, forward := Off, disputed := Off, fdWhile := env.forwardDelay);
  }

  lemma SpinningGoesOn(p: Ptp, prt: Port, env: Env, allSynced: bool)
    requires Spins(p, prt, env, allSynced)
    ensures MasterTarget(p, prt, allSynced).Some?
  {
  }

  /** What holds a Master Port closed, apart from a dispute. */
  predicate HeldClosed(p: Ptp, prt: Port) {
    prt.operEdge.Off? && ((p.sync.On? && p.synced.Off?) || (p.reRoot.On? && p.rrWhile != 0))
  }

  /** Flags that are only ever used up. */
  function FlagWork(p: Ptp): nat {
    2 * One(p.proposed.On?) + One(p.agree.Off?) + One(p.synced.Off?) + One(p.sync.On?) + One(p.reRoot.On?)
  }

  /** Openings and closings left while the flags stay as they are. */
  function MotionWork(p: Ptp, prt: Port, env: Env, allSynced: bool): nat {
    if !HeldClosed(p, prt) then 3 * One(p.disputed.On?) + One(p.learn.Off?) + One(p.forward.Off?)
    else if !allSynced && env.forwardDelay != 0 then
      if p.fdWhile == 0 then 4 + One(p.learn.Off?) + One(p.forward.Off?) else One(p.learn.On? || p.forward.On?)
    else 10 * One(p.agreed.Off?) + 5 * One(p.fdWhile != 0 && !allSynced)
         + if p.learn.Off? && p.forward.On? then 4 else if p.forward.On? then 3 else if p.learn.Off? then 2 else 1
  }

  function MasterWork(p: Ptp, prt: Port, env: Env, allSynced: bool): nat {
    40 * FlagWork(p) + MotionWork(p, prt, env, allSynced)
  }

  lemma FlagStepDrops(p: Ptp, prt: Port, env: Env, x: PrtsmState, allSynced: bool)
    requires MasterTarget(p, prt, allSynced) == Some(x)
    requires x == MasterRetired || x == MasterSynced || x == MasterAgreed || x == MasterProposed
    ensures FlagWork(Act(p, x, prt, env)) < FlagWork(p)
  {
  }

  lemma MotionStepDrops(p: Ptp, prt: Port, env: Env, x: PrtsmState, allSynced: bool)
    requires MasterTarget(p, prt, allSynced) == Some(x) && !Spins(p, prt, env, allSynced)
    requires x == MasterForward || x == MasterLearn || x == MasterDiscard
    ensures FlagWork(Act(p, x, prt, env)) == FlagWork(p)
    ensures MotionWork(Act(p, x, prt, env), prt, env, allSynced) < MotionWork(p, prt, env, allSynced)
  {
    var q := Act(p, x, prt, env);
    match x
    case MasterForward => assert q == p.(prtsm := x, forward := On, fdWhile := 0, agreed := prt.sendRSTP);
    case MasterLearn => assert q == p.(prtsm := x, learn := On, fdWhile := env.forwardDelay);
    case MasterDiscard =>
      assert q == p.(prtsm := x, learn := Off, forward := Off, disputed := Off, fdWhile := env.forwardDelay);
    case _ =>
  }

  /** Within one chain the Master Port's measure: it counts the way back from a state that is passed through. */
  function ChainWork(p: Ptp, prt: Port, env: Env, allSynced: bool): nat {
    if p.role != RoleMaster then 2 * MasterWork(p, prt, env, allSynced) + 2
    else 2 * MasterWork(p, prt, env, allSynced) + One(p.prtsm != MasterPort)
  }

  /** The port has, or is about to take up, the Master role. */
  predicate BecomesMaster(p: Ptp) {
    p.selectedRole == RoleMaster && Active(p) && (p.role == RoleMaster ==> FamilyOf(p.prtsm) == FamMaster)
  }

  lemma MasterStepDrops(p: Ptp, prt: Port, env: Env, allSynced: bool)
    requires MasterTarget(p, prt, allSynced).Some? && !Spins(p, prt, env, allSynced)
    ensures var x := MasterTarget(p, prt, allSynced).value;
            MasterWork(Act(p, x, prt, env), prt, env, allSynced) < MasterWork(p, prt, env, allSynced)
  {
    var x := MasterTarget(p, prt, allSynced).value;
    var q := Act(p, x, prt, env);
    if x == MasterForward || x == MasterLearn || x == MasterDiscard {
      MotionStepDrops(p, prt, env, x, allSynced);
    } else {
      FlagStepDrops(p, prt, env, x, allSynced);
      assert MotionWork(q, prt, env, allSynced) < 40;
    }
  }

  /** One transition of a port that has or takes up the Master role. */
  lemma MasterRowStep(row: Row, i: nat, env: Env)
    requires i < |row.ptps| && BecomesMaster(row.ptps[i]) && RowTarget(row, i, env).Some?
    ensures var all := SyncedAsMaster(row.ptps, i);
            var next := Enter(row, i, RowTarget(row, i, env).value, env);
            var p, q := row.ptps[i], next.ptps[i];
            && BecomesMaster(q) && SyncedAsMaster(next.ptps, i) == all && next.prt == row.prt
            && (Spins(q, row.prt, env, all) <==> Spins(p, row.prt, env, all))
            && (!Spins(p, row.prt, env, all) ==> ChainWork(q, row.prt, env, all) < ChainWork(p, row.prt, env, all))
  {
    var p, x := row.ptps[i], RowTarget(row, i, env).value;
    var next := Enter(row, i, x, env);
    MasterEntryShape(row, i, env);
    SyncedStays(row, next, i);
    if p.role == RoleMaster && p.prtsm == MasterPort {
      assert row.ptps[i := p.(role := RoleMaster)] == row.ptps;
      OwnStep(p, next.ptps[i], row.prt, env, SyncedAsMaster(row.ptps, i));
    } else {
      PassingStep(p, next.ptps[i], row.prt, env, SyncedAsMaster(row.ptps, i));
    }
  }

  lemma OwnStep(p: Ptp, q: Ptp, prt: Port, env: Env, all: bool)
    requires p.role == RoleMaster && p.prtsm == MasterPort && MasterTarget(p, prt, all).Some?
    requires q == Act(p, MasterTarget(p, prt, all).value, prt, env) && q.role == RoleMaster
    ensures Spins(q, prt, env, all) <==> Spins(p, prt, env, all)
    ensures !Spins(p, prt, env, all) ==> ChainWork(q, prt, env, all) < ChainWork(p, prt, env, all)
  {
    StepKeepsSpinning(p, prt, env, all);
    if !Spins(p, prt, env, all) { MasterStepDrops(p, prt, env, all); }
  }

  lemma PassingStep(p: Ptp, q: Ptp, prt: Port, env: Env, all: bool)
    requires q == p.(prtsm := MasterPort, role := RoleMaster) && (p.role != RoleMaster || p.prtsm != MasterPort)
    ensures Spins(q, prt, env, all) <==> Spins(p, prt, env, all)
    ensures ChainWork(q, prt, env, all) < ChainWork(p, prt, env, all)
  {
  }

  /** Only the port itself changes, apart from `sync` of the others. */
  lemma MasterEntryShape(row: Row, i: nat, env: Env)
    requires i < |row.ptps| && BecomesMaster(row.ptps[i]) && RowTarget(row, i, env).Some?
    ensures var x := RowTarget(row, i, env).value;
            var next := Enter(row, i, x, env);
            && FamilyOf(x) == FamMaster && next.prt == row.prt
            && next.ptps[i] == Act(row.ptps[i], x, row.prt, env) && next.ptps[i].role == RoleMaster
            && next.ptps[i].selectedRole == RoleMaster && Active(next.ptps[i])
            && (row.ptps[i].role != RoleMaster || row.ptps[i].prtsm != MasterPort ==>
                  next.ptps[i] == row.ptps[i].(prtsm := MasterPort, role := RoleMaster))
            && forall j :: 0 <= j < |row.ptps| && j != i ==> next.ptps[j] == row.ptps[j].(sync := next.ptps[j].sync)
  {
    var x := RowTarget(row, i, env).value;
    TargetIsMaster(row.ptps[i], row.prt, env, AllSynced(row.ptps, i), ReRooted(row.ptps, i));
    MasterActs(row.ptps[i], x, row.prt, env);
    forall j | 0 <= j < |row.ptps|
      ensures var q := ActOther(row.ptps[j], x); q == row.ptps[j].(sync := q.sync)
    {
      MasterActsOnOther(row.ptps[j], x);
    }
  }

  lemma TargetIsMaster(p: Ptp, prt: Port, env: Env, allSynced: bool, reRooted: bool)
    requires BecomesMaster(p) && Target(p, prt, env, allSynced, reRooted).Some?
    ensures var x := Target(p, prt, env, allSynced, reRooted).value;
            && FamilyOf(x) == FamMaster && (p.role != RoleMaster ==> x == MasterPort)
            && (p.role == RoleMaster && p.prtsm != MasterPort ==> x == MasterPort)
  {
  }

  lemma MasterActs(p: Ptp, x: PrtsmState, prt: Port, env: Env)
    requires FamilyOf(x) == FamMaster && (x != MasterPort ==> p.role == RoleMaster)
    ensures ActPort(prt, p, x, env) == prt
    ensures var q := Act(p, x, prt, env);
            && q.role == RoleMaster && q.selectedRole == p.selectedRole && Active(q) == Active(p) && q.prtsm == x
            && (x == MasterPort ==> q == p.(prtsm := MasterPort, role := RoleMaster))
  {
  }

  lemma MasterActsOnOther(p: Ptp, x: PrtsmState)
    requires FamilyOf(x) == FamMaster
    ensures ActOther(p, x) == p.(sync := ActOther(p, x).sync)
  {
  }

  /** Whether the tree is in sync does not depend on what a Master Port's transitions change. */
  lemma SyncedStays(row: Row, next: Row, i: nat)
    requires i < |row.ptps| == |next.ptps|
    requires var p, q := row.ptps[i], next.ptps[i];
             Active(p) && Active(q) && p.selectedRole == q.selectedRole == RoleMaster
    requires forall j :: 0 <= j < |row.ptps| && j != i ==> next.ptps[j] == row.ptps[j].(sync := next.ptps[j].sync)
    ensures SyncedAsMaster(next.ptps, i) == SyncedAsMaster(row.ptps, i)
  {
    var a, b := row.ptps[i := row.ptps[i].(role := RoleMaster)], next.ptps[i := next.ptps[i].(role := RoleMaster)];
    forall j | 0 <= j < |a|
      ensures Active(a[j]) == Active(b[j]) && a[j].role == b[j].role && a[j].selectedRole == b[j].selectedRole
      ensures j != i ==> a[j].synced == b[j].synced
    {
    }
  }

  // ---- When a chain ends ----

  lemma {:induction false} SpinningNeverEnds(row: Row, i: nat, env: Env, n: nat)
    requires i < |row.ptps| && BecomesMaster(row.ptps[i]) && RowSpins(row, i, env)
    ensures !EndsAfter(row, i, env, n)
    decreases n
  {
    MasterRowGoesOn(row, i, env);
    if n > 0 {
      var next := SpinningStep(row, i, env, n);
      SpinningNeverEnds(next, i, env, n - 1);
    }
  }

  lemma SpinningStep(row: Row, i: nat, env: Env, n: nat) returns (next: Row)
    requires i < |row.ptps| && BecomesMaster(row.ptps[i]) && RowSpins(row, i, env) && RowTarget(row, i, env).Some?
             && n > 0
    ensures |next.ptps| == |row.ptps| && BecomesMaster(next.ptps[i]) && RowSpins(next, i, env)
    ensures EndsAfter(row, i, env, n) <==> EndsAfter(next, i, env, n - 1)
  {
    MasterRowStep(row, i, env);
    next := Enter(row, i, RowTarget(row, i, env).value, env);
  }

  lemma MasterRowGoesOn(row: Row, i: nat, env: Env)
    requires i < |row.ptps| && BecomesMaster(row.ptps[i]) && RowSpins(row, i, env)
    ensures RowTarget(row, i, env).Some?
  {
    var p := row.ptps[i];
    if p.role == RoleMaster && p.prtsm == MasterPort {
      assert row.ptps[i := p.(role := RoleMaster)] == row.ptps;
      SpinningGoesOn(p, row.prt, env, SyncedAsMaster(row.ptps, i));
    }
  }

  lemma {:induction false} OtherMastersEnd(row: Row, i: nat, env: Env) returns (n: nat)
    requires i < |row.ptps| && BecomesMaster(row.ptps[i]) && !RowSpins(row, i, env)
    ensures EndsAfter(row, i, env, n)
    decreases ChainWork(row.ptps[i], row.prt, env, SyncedAsMaster(row.ptps, i))
  {
    n := 0;
    if RowTarget(row, i, env).Some? {
      MasterRowStep(row, i, env);
      n := OtherMastersEnd(Enter(row, i, RowTarget(row, i, env).value, env), i, env);
      n := n + 1;
    }
  }

  predicate PortState(x: PrtsmState) {
    x == DisablePort || x == MasterPort || x == RootPort || x == DesignatedPort || x == AlternatePort
  }

  lemma InactiveTarget(p: Ptp, prt: Port, env: Env, allSynced: bool, reRooted: bool)
    requires !Active(p)
    ensures var x := Target(p, prt, env, allSynced, reRooted);
            (x.Some? ==> PortState(x.value)) && (PortState(p.prtsm) ==> x.None?)
  {
  }

  /** A port whose role is not settled makes at most one transition. */
  lemma InactiveEnds(row: Row, i: nat, env: Env)
    requires i < |row.ptps| && !Active(row.ptps[i])
    ensures EndsAfter(row, i, env, 1)
  {
    var x := RowTarget(row, i, env);
    InactiveTarget(row.ptps[i], row.prt, env, AllSynced(row.ptps, i), ReRooted(row.ptps, i));
    if x.Some? {
      ActKeepsSelection(row.ptps[i], row.prt, env, x.value);
      var next := Enter(row, i, x.value, env);
      InactiveTarget(next.ptps[i], next.prt, env, AllSynced(next.ptps, i), ReRooted(next.ptps, i));
      assert Iterated(row, i, env, 1) == Iterated(next, i, env, 0) == next;
    }
  }

  lemma {:induction false} OthersEnd(row: Row, i: nat, env: Env) returns (n: nat)
    requires i < |row.ptps| && row.ptps[i].selectedRole != RoleMaster
    ensures EndsAfter(row, i, env, n)
    decreases Measure(row.ptps[i], row.prt, env)
  {
    n := 0;
    var x := RowTarget(row, i, env);
    if x.Some? {
      StepDecreases(row.ptps[i], row.prt, env, AllSynced(row.ptps, i), ReRooted(row.ptps, i));
      ActKeepsSelection(row.ptps[i], row.prt, env, x.value);
      n := OthersEnd(Enter(row, i, x.value, env), i, env);
      n := n + 1;
    }
  }

  /** The chain of transitions of a port ends if and only if the port is not one of the Master Ports that spin. */
  lemma ChainEndsIff(row: Row, i: nat, env: Env)
    requires i < |row.ptps| && Fits(FamilyOf(row.ptps[i].prtsm), row.ptps[i].role)
    ensures (exists n: nat :: EndsAfter(row, i, env, n)) <==> !RowSpins(row, i, env)
  {
    if row.ptps[i].selectedRole != RoleMaster {
      var n := OthersEnd(row, i, env);
    } else if !Active(row.ptps[i]) {
      InactiveEnds(row, i, env);
    } else if RowSpins(row, i, env) {
      forall n: nat
        ensures !EndsAfter(row, i, env, n)
      {
        SpinningNeverEnds(row, i, env, n);
      }
    } else {
      var n := OtherMastersEnd(row, i, env);
    }
  }
}
