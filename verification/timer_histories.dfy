/** The topology change flag over every history of a bridge that has only the CIST. */
module TimerHistories {
  import opened Types
  import opened Driver
  import opened PassStages
  import opened LiveTimes
  import opened SteadyRuns
  import opened Runs
  import RT = RoleTransitions
  import PI = PortInfo
  import PIT = PortInfoTheorems
  import PM = PortMachines
  import TC = TopologyChange

  // ---- What holds from port to port ----

  /** The routine carries a property from one port to the next. */
  ghost predicate Carries(f: (BState, nat) -> BState, p: (BState, nat) -> bool) {
    forall b, i: nat :: Inv(b) && i < |b.ports| && p(b, i) ==> p(f(b, i), i + 1)
  }

  lemma {:induction false} CarriedToAll(f: (BState, nat) -> BState, p: (BState, nat) -> bool, b: BState, n: nat)
    requires Inv(b) && n <= |b.ports| && Harmless(f) && Carries(f, p) && p(b, 0)
    ensures p(InTurn(f, b, n), n)
  {
    if n > 0 {
      CarriedToAll(f, p, b, n - 1);
      InTurnKeepsInv(f, b, n - 1);
    }
  }

  // ---- Phases that leave the timers alone ----

  /** The routine changes neither a topology change timer nor the flag. */
  ghost predicate KeepsTimers(f: (BState, nat) -> BState) {
    forall b, i: nat :: Inv(b) && i < |b.ports| ==> TC.SameTimers(b.tree, f(b, i).tree)
  }

  lemma SameTimersCompose(a: Tree, b: Tree, c: Tree)
    requires TC.SameTimers(a, b) && TC.SameTimers(b, c)
    ensures TC.SameTimers(a, c)
  {
  }

  lemma {:induction false} TimersKeptByAll(f: (BState, nat) -> BState, b: BState, n: nat)
    requires Inv(b) && n <= |b.ports| && Harmless(f) && KeepsTimers(f)
    ensures TC.SameTimers(b.tree, InTurn(f, b, n).tree)
  {
    if n > 0 {
      TimersKeptByAll(f, b, n - 1);
      InTurnKeepsInv(f, b, n - 1);
      var before := InTurn(f, b, n - 1);
      SameTimersCompose(b.tree, before.tree, f(before, n - 1).tree);
    }
  }

  /** Changing one entry, but not its timer. */
  lemma PutKeepsTimers(tree: Tree, i: nat, q: Ptp)
    requires i < |tree.ptps| && q.tcWhile == tree.ptps[i].tcWhile
    ensures TC.SameTimers(tree, tree.(ptps := tree.ptps[i := q]))
  {
  }

  lemma RunKeepsTimers(m: Machine, b: BState, i: nat)
    requires Inv(b) && i < |b.ports| && m != TopologyTc
    ensures TC.SameTimers(b.tree, RunOn(m, b, i).tree)
  {
    assert EntryAt(b, i);
    match m
    case Receive => PutKeepsTimers(b.tree, i, PM.PrsmRun(ColumnOf(b, i), b.cfg).ptps[0]);
    case Information =>
      PIT.RestIsFramed(ColumnOf(b, i), 0, b.cfg);
      PutKeepsTimers(b.tree, i, PI.Rest(ColumnOf(b, i), 0, b.cfg).ptps[0]);
    case StateTransition =>
      PM.PstsmAligns(b.tree.ptps[i], b.ports[i].deleted, i);
      PutKeepsTimers(b.tree, i, PM.PstsmRun(b.tree.ptps[i], b.ports[i].deleted, i).0);
    case RoleTransition => RoleRunKeepsTimers(b, i);
    case Assurance | Migration | Detection | Transmission =>
  }

  lemma RoleRunKeepsTimers(b: BState, i: nat)
    requires Inv(b) && i < |b.ports|
    ensures TC.SameTimers(b.tree, RunRoleTransition(b, i).tree)
  {
    assert EntryAt(b, i);
    var row, env := RT.Row(b.ports[i], b.tree.ptps), RoleEnv(b, i);
    RT.RestIsFramed(row, i, env);
    var r := RT.Rest(row, i, env);
    forall j | 0 <= j < |b.ports|
      ensures r.ptps[j].tcWhile == b.tree.ptps[j].tcWhile
    {
      assert j == i || RT.OtherFrame(row.ptps[j], r.ptps[j]);
    }
  }

  lemma PhaseKeepsTimers(m: Machine, b: BState)
    requires Inv(b) && m != TopologyTc
    ensures TC.SameTimers(b.tree, Whole(m, b).tree)
  {
    StepIsHarmless(m);
    forall c, i: nat | Inv(c) && i < |c.ports|
      ensures TC.SameTimers(c.tree, Step(m)(c, i).tree)
    {
      RunKeepsTimers(m, c, i);
    }
    TimersKeptByAll(Step(m), b, |b.ports|);
  }

  lemma SelectionKeepsTimers(b: BState)
    requires |b.ports| == |b.tree.ptps| && b.tree.mstid == 0
    ensures TC.SameTimers(b.tree, SelectRoles(b).tree)
  {
    if SelectionEnabled(b) {
      forall i | 0 <= i < |b.ports|
        ensures Selected(b).tree.ptps[i].tcWhile == b.tree.ptps[i].tcWhile
      {
        SelectedEntry(b, i);
      }
    }
  }

  lemma TurnKeepsTimers(b: BState, k: nat)
    requires Inv(b) && k < 8
    ensures TC.SameTimers(Reached(b, k).tree, Reached(b, k + 1).tree)
  {
    var c := StartKeepsTimers(b, k);
    EndKeepsTimers(b, k, c);
    SameTimersCompose(Reached(b, k).tree, c.tree, Reached(b, k + 1).tree);
  }

  lemma StartKeepsTimers(b: BState, k: nat) returns (c: BState)
    requires Inv(b) && k < PHASES
    ensures Inv(c) && c == PhaseStart(b, k) && TC.SameTimers(Reached(b, k).tree, c.tree)
  {
    PreparedKeepsTimers(k, Reached(b, k));
    c := PhaseStart(b, k);
  }

  lemma EndKeepsTimers(b: BState, k: nat, c: BState)
    requires Inv(b) && Inv(c) && k < 8 && c == PhaseStart(b, k)
    ensures TC.SameTimers(c.tree, Reached(b, k + 1).tree)
  {
    var m := EarlyTurn(k);
    PhaseKeepsTimers(m, c);
    NextPhase(b, k);
  }

  lemma EarlyTurn(k: nat) returns (m: Machine)
    requires k < 8
    ensures m == Turn(k) && m != TopologyTc
  {
    m := Turn(k);
  }

  lemma PreparedKeepsTimers(k: nat, r: BState)
    requires Inv(r)
    ensures TC.SameTimers(r.tree, Prepared(k, r).tree)
  {
    if k == 6 { SelectionKeepsTimers(r); }
  }

  /** Until the Topology Change machines run, a pass leaves the timers alone. */
  lemma {:induction false} ReachedKeepsTimers(b: BState, k: nat)
    requires Inv(b) && k <= 8
    ensures TC.SameTimers(b.tree, Reached(b, k).tree)
    decreases k
  {
    if k > 0 {
      ReachedKeepsTimers(b, k - 1);
      TurnKeepsTimers(b, k - 1);
      SameTimersCompose(b.tree, Reached(b, k - 1).tree, Reached(b, k).tree);
    } else {
      NothingRun(b);
    }
  }

  // ---- The Topology Change machines ----

  /** A timer started on any port really runs. */
  ghost predicate AllTimersRun(b: BState) {
    forall i :: 0 <= i < |b.ports| ==> TC.TimersRun(b.tree, b.ports[i])
  }

  lemma TopologyRunKeepsFlag(b: BState, i: nat)
    requires Inv(b) && i < |b.ports| && TC.FlagOk(b.tree) && AllTimersRun(b)
    ensures TC.FlagOk(RunTopology(b, i).tree) && AllTimersRun(RunTopology(b, i))
  {
    assert EntryAt(b, i);
    var c, env := TC.Ctx(b.tree, b.ports[i], b.out), TC.EnvOf(b.cfg, b.tree.ptps[i]);
    TC.RestKeepsFlag(c, i, env, i);
    TC.RestIsFramed(c, i, env, i);
    var r := RunTopology(b, i);
    forall j | 0 <= j < |r.ports|
      ensures TC.TimersRun(r.tree, r.ports[j])
    {
      assert TC.TimersRun(b.tree, b.ports[j]);
    }
  }

  ghost function FlagRuns(): (BState, nat) -> bool {
    (b: BState, i: nat) => TC.FlagOk(b.tree) && AllTimersRun(b)
  }

  lemma TopologyCarriesFlag()
    ensures Carries(Step(TopologyTc), FlagRuns())
  {
    forall b, i: nat | Inv(b) && i < |b.ports| && FlagRuns()(b, i)
      ensures FlagRuns()(Step(TopologyTc)(b, i), i + 1)
    {
      TopologyRunKeepsFlag(b, i);
      assert Step(TopologyTc)(b, i) == RunTopology(b, i);
    }
  }

  lemma TopologyPhaseKeepsFlag(b: BState)
    requires Inv(b) && TC.FlagOk(b.tree) && AllTimersRun(b)
    ensures TC.FlagOk(Whole(TopologyTc, b).tree)
  {
    StepIsHarmless(TopologyTc);
    TopologyCarriesFlag();
    CarriedToAll(Step(TopologyTc), FlagRuns(), b, |b.ports|);
  }

  lemma SameTimersSameFlag(a: Tree, b: Tree)
    requires TC.SameTimers(a, b)
    ensures TC.FlagOk(a) ==> TC.FlagOk(b)
  {
    if TC.FlagOk(a) && TC.SomeTcWhile(a.ptps) {
      var j :| 0 <= j < |a.ptps| && a.ptps[j].tcWhile != 0;
      assert b.ptps[j].tcWhile != 0;
    }
  }

  /** A pass keeps the flag exact when the root times are not both 0 after its role selection. */
  lemma PassKeepsFlag(b: BState)
    requires Inv(b) && TC.FlagOk(b.tree) && Live(PhaseStart(b, 8).tree.rootTimes)
    ensures TC.FlagOk(Pass(b).tree)
  {
    ReachedKeepsTimers(b, 8);
    var mid := PhaseStart(b, 8);
    SameTimersSameFlag(b.tree, mid.tree);
    TopologyPhaseKeepsFlag(mid);
    NextPhase(b, 8);
  }

  /** So it does on every good bridge. */
  lemma ReadyPassKeepsFlag(b: BState)
    requires Inv(b) && TC.FlagOk(b.tree) && AllReady(b)
    ensures TC.FlagOk(Pass(b).tree)
  {
    PassMakesGood(b);
    PassKeepsFlag(b);
  }

  lemma PassesKeepFlag(b: BState, n: nat)
    requires Inv(b) && TC.FlagOk(b.tree) && AllGood(b)
    ensures TC.FlagOk(Passes(b, n).tree)
  {
    forall c: BState | Inv(c) && AllGood(c) && TC.FlagOk(c.tree)
      ensures AllGood(Pass(c)) && TC.FlagOk(Pass(c).tree)
    {
      GoodIsReady(c);
      PassMakesGood(c);
      PassKeepsFlag(c);
    }
    KeptByPasses((c: BState) => AllGood(c) && TC.FlagOk(c.tree), b, n);
  }

  // ---- Ticks and begins ----

  lemma TickPortKeepsFlag(b: BState, i: nat)
    requires Inv(b) && i < |b.ports| && TC.FlagOk(b.tree)
    ensures TC.FlagOk(TickPort(b, i).tree)
  {
    var t := b.tree.(ptps := b.tree.ptps[i := TickedEntry(b.tree.ptps[i])]);
    PutKeepsTimers(b.tree, i, TickedEntry(b.tree.ptps[i]));
    SameTimersSameFlag(b.tree, t);
    TC.TickKeepsFlag(t, i);
  }

  ghost function FlagExact(): (BState, nat) -> bool {
    (b: BState, i: nat) => TC.FlagOk(b.tree)
  }

  lemma TicksKeepFlag(b: BState)
    requires Inv(b) && TC.FlagOk(b.tree)
    ensures TC.FlagOk(InTurn(Tick, b, |b.ports|).tree)
  {
    forall c, i: nat | Inv(c) && i < |c.ports| && FlagExact()(c, i)
      ensures FlagExact()(Tick(c, i), i + 1)
    {
      TickPortKeepsFlag(c, i);
    }
    TickIsHarmless();
    CarriedToAll(Tick, FlagExact(), b, |b.ports|);
  }

  lemma SecondKeepsFlag(b: BState)
    requires Inv(b) && TC.FlagOk(b.tree)
    ensures TC.FlagOk(Ticked(b).tree)
  {
    var b1 := b.(tree := if b.tree.topologyChange then b.tree else b.tree.(timeSinceTc := b.tree.timeSinceTc + 1));
    SameEntriesKeepInv(b, b1);
    TicksKeepFlag(b1);
  }

  /** A raised flag belongs to a running timer; a lowered one says nothing. */
  ghost predicate NotStale(tree: Tree) {
    tree.topologyChange ==> TC.SomeTcWhile(tree.ptps)
  }

  /** The timers of the first `n` ports are stopped. */
  ghost predicate Stopped(b: BState, n: nat) {
    n <= |b.tree.ptps| && forall j :: 0 <= j < n ==> b.tree.ptps[j].tcWhile == 0
  }

  lemma TcBegunStops(b: BState, i: nat)
    requires Inv(b) && i < |b.ports| && NotStale(b.tree) && Stopped(b, i)
    ensures NotStale(TcBegunAt(b, i).tree) && Stopped(TcBegunAt(b, i), i + 1)
  {
    assert EntryAt(b, i);
    var c, env := TC.Ctx(b.tree, b.ports[i], b.out), TC.EnvOf(b.cfg, b.tree.ptps[i]);
    var d := TC.Put(c, i, c.tree.ptps[i].(tcsm := TcInactive));
    var e := TC.SetFdbFlush(d, i, env, i);
    assert TcBegunAt(b, i).tree == TC.StopTcWhile(e, i).tree;
    assert e.tree.ptps == b.tree.ptps[i := e.tree.ptps[i]] && e.tree.topologyChange == b.tree.topologyChange;
  }

  ghost function StoppedSoFar(): (BState, nat) -> bool {
    (b: BState, i: nat) => NotStale(b.tree) && Stopped(b, i)
  }

  lemma TcBeginStopsAll(b: BState)
    requires Inv(b) && NotStale(b.tree)
    ensures var r := InTurn(TcBegin, b, |b.ports|); NotStale(r.tree) && Stopped(r, |b.ports|)
  {
    forall c, i: nat | Inv(c) && i < |c.ports| && StoppedSoFar()(c, i)
      ensures StoppedSoFar()(TcBegin(c, i), i + 1)
    {
      TcBegunStops(c, i);
    }
    TcBeginIsHarmless();
    CarriedToAll(TcBegin, StoppedSoFar(), b, |b.ports|);
  }

  /** After the begin state no timer runs and the flag is down. */
  lemma BeginMakesFlagExact(b: BState)
    requires Inv(b) && NotStale(b.tree)
    ensures TC.FlagOk(Begin(b).tree)
  {
    var begun := BegunAll(b);
    BegunAllKeepsInv(b);
    forall i | 0 <= i < |b.ports|
      ensures begun.tree.ptps[i].tcWhile == b.tree.ptps[i].tcWhile
    {
      assert EntryAt(b, i);
      BegunEntryOk(b.tree.ptps[i], BegunPort(b.ports[i], b.cfg), b.cfg);
    }
    if TC.SomeTcWhile(b.tree.ptps) {
      var j :| 0 <= j < |b.tree.ptps| && b.tree.ptps[j].tcWhile != 0;
      assert begun.tree.ptps[j].tcWhile != 0;
    }
    TcBeginStopsAll(begun);
    TcBeginIsHarmless();
    InTurnKeepsInv(TcBegin, begun, |b.ports|);
  }

  /** The begin of a single port keeps the flag exact. */
  lemma PortBegunKeepsFlag(b: BState, i: nat)
    requires Inv(b) && i < |b.ports| && TC.FlagOk(b.tree)
    ensures TC.FlagOk(PortBegun(b, i).tree)
  {
    assert EntryAt(b, i);
    InfoBegunAtKeepsInv(b, i);
    var b1 := InfoBegunAt(b, i);
    InfoBegunOk(b.tree.ptps[i], BegunPort(b.ports[i], b.cfg), b.cfg);
    PutKeepsTimers(b.tree, i, b1.tree.ptps[i]);
    SameTimersSameFlag(b.tree, b1.tree);
    SelectionKeepsInv(b1);
    SelectionKeepsTimers(b1);
    var b2 := SelectRoles(b1);
    SameTimersSameFlag(b1.tree, b2.tree);
    assert EntryAt(b2, i);
    RolesBegunOk(b2.tree.ptps[i], b2.ports[i], b2.cfg);
    var b3 := RolesBegunAt(b2, i);
    PutKeepsTimers(b2.tree, i, b3.tree.ptps[i]);
    SameTimersSameFlag(b2.tree, b3.tree);
    TC.StoppingKeepsFlag(TC.Ctx(b3.tree, b3.ports[i], b3.out), i, TcInactive, TC.EnvOf(b3.cfg, b3.tree.ptps[i]), i);
  }

  // ---- Removing and adding ports ----

  /** Removing a port keeps the flag exact if and only if its timer was not the only one running. */
  lemma RemovalKeepsFlagIff(b: BState, i: nat)
    requires |b.ports| == |b.tree.ptps| && i < |b.ports| && TC.FlagOk(b.tree)
    ensures TC.FlagOk(Removed(b, i).tree) <==>
            b.tree.ptps[i].tcWhile == 0 || exists j :: 0 <= j < |b.ports| && j != i && b.tree.ptps[j].tcWhile != 0
  {
    var r := Removed(b, i).tree.ptps;
    assert forall j :: 0 <= j < |r| ==> r[j] == b.tree.ptps[if j < i then j else j + 1];
    if j :| 0 <= j < |b.ports| && j != i && b.tree.ptps[j].tcWhile != 0 {
      assert r[if j < i then j else j - 1].tcWhile != 0;
    } else if b.tree.ptps[i].tcWhile != 0 {
      assert !TC.SomeTcWhile(r);
    }
  }

  lemma AdditionKeepsFlag(b: BState, portId: u16, cost: u32)
    requires TC.FlagOk(b.tree)
    ensures TC.FlagOk(Added(b, portId, cost).tree)
  {
    var r := Added(b, portId, cost).tree.ptps;
    if TC.SomeTcWhile(b.tree.ptps) {
      var j :| 0 <= j < |b.tree.ptps| && b.tree.ptps[j].tcWhile != 0;
      assert r[j].tcWhile != 0;
    }
  }

  // ---- Every event ----

  /** While the bridge is enabled the flag is exact; while it is disabled the flag is down. */
  ghost predicate Exact(b: BState) {
    if b.cfg.enabled then TC.FlagOk(b.tree) else !b.tree.topologyChange
  }

  lemma ExactIsNotStale(b: BState)
    requires Exact(b)
    ensures NotStale(b.tree)
  {
  }

  lemma SameTimersKeepExact(b: BState, r: BState)
    requires Exact(b) && TC.SameTimers(b.tree, r.tree) && r.cfg.enabled == b.cfg.enabled
    ensures Exact(r)
  {
    SameTimersSameFlag(b.tree, r.tree);
  }

  // ---- Events on ports ----

  lemma FirstEffectKeepsTimers(p: PortEvent, b: BState)
    requires Inv(b) && Exists(p, b) && !p.AddPort?
    ensures TC.SameTimers(b.tree, AfterPortEvent(p, b).tree)
  {
    match p
    case RxBpdu(_, _, _) | PortDown(_) | DeletePort(_, _) =>
    case PortUp(i, ec, ic, p2p) => PutKeepsTimers(b.tree, i, b.tree.ptps[i].(internalCost := ic));
    case Mcheck(i) => PutKeepsTimers(b.tree, i, b.tree.ptps[i].(proposing := On));
  }

  lemma FirstEffectKeepsFlag(p: PortEvent, b: BState)
    requires Inv(b) && Exists(p, b) && !p.AddPort? && TC.FlagOk(b.tree)
    ensures TC.FlagOk(AfterPortEvent(p, b).tree)
  {
    FirstEffectKeepsTimers(p, b);
    SameTimersSameFlag(b.tree, AfterPortEvent(p, b).tree);
  }

  /** The driver loop sees a port that goes down before it is unlinked, and stops its timer; so a deletion keeps the
      flag exact. */
  lemma DeletionKeepsFlag(p: PortEvent, b: BState)
    requires Inv(b) && b.cfg.enabled && Exists(p, b) && p.DeletePort? && AllGood(b) && Meets(OnPorts(p), b)
    requires TC.FlagOk(b.tree)
    ensures TC.FlagOk(PortEventDone(p, b).tree)
  {
    PortEventKeepsInv(p, b);
    SeenKeepsFlag(p, b, AfterPortEvent(p, b));
    var r := DeletedIsStopped(p, b);
    RemovalKeepsFlagIff(r, p.i);
  }

  lemma SeenKeepsFlag(p: PortEvent, b: BState, first: BState)
    requires Inv(b) && b.cfg.enabled && Exists(p, b) && (p.DeletePort? || p.PortDown?)
    requires AllGood(b) && Meets(OnPorts(p), b) && TC.FlagOk(b.tree) && first == AfterPortEvent(p, b) && Inv(first)
    ensures TC.FlagOk(Seen(p, b, first).tree)
  {
    FirstEffectKeepsFlag(p, b);
    if TakesDown(p, b) {
      GoingDownIsReady(p, b);
      ReadyPassKeepsFlag(first);
      PassMakesGood(first);
      if p.DeletePort? { PassesKeepFlag(Pass(first), p.passes); }
    }
  }

  lemma AdditionEventKeepsFlag(b: BState, portId: u16, cost: u32)
    requires Inv(b) && b.cfg.enabled && TC.FlagOk(b.tree)
    ensures TC.FlagOk(PortEventDone(AddPort(portId, cost), b).tree)
  {
    AdditionIsBegun(b, portId, cost);
    AdditionKeepsFlag(b, portId, cost);
    PortBegunKeepsFlag(Added(b, portId, cost), |b.ports|);
  }

  lemma PortEventKeepsFlag(p: PortEvent, b: BState)
    requires Inv(b) && b.cfg.enabled && Exists(p, b) && AllGood(b) && Meets(OnPorts(p), b) && TC.FlagOk(b.tree)
    ensures TC.FlagOk(PortEventDone(p, b).tree)
  {
    PortEventKeepsInv(p, b);
    if p.AddPort? {
      AdditionEventKeepsFlag(b, p.portId, p.internalCost);
    } else if p.DeletePort? {
      DeletionKeepsFlag(p, b);
    } else if p.PortDown? {
      SeenKeepsFlag(p, b, AfterPortEvent(p, b));
    } else {
      FirstEffectKeepsFlag(p, b);
    }
  }

  /** While the bridge is disabled no event on a port raises the flag. */
  lemma DisabledPortEventKeepsFlagDown(p: PortEvent, b: BState)
    requires Inv(b) && !b.cfg.enabled && Exists(p, b) && !b.tree.topologyChange
    ensures !PortEventDone(p, b).tree.topologyChange && !PortEventDone(p, b).cfg.enabled
  {
    PortEventKeepsInv(p, b);
  }

  // ---- Settings ----

  /** Settings leave the timers alone, except that switching the bridge on or off lowers the flag. */
  lemma SettingKeepsTimers(s: Setting, b: BState)
    requires Inv(b) && !s.EnableBridge?
    ensures TC.SameTimers(b.tree, AfterSetting(s, b).tree) && AfterSetting(s, b).cfg.enabled == b.cfg.enabled
  {
  }

  lemma SettingKeepsExact(s: Setting, b: BState) returns (r: BState)
    requires Inv(b) && Exact(b)
    ensures r == AfterSetting(s, b) && Inv(r) && NotStale(r.tree)
    ensures (Restarts(s, b) && r.cfg.enabled) || Exact(r)
  {
    r := AfterSetting(s, b);
    SettingKeepsInv(s, b);
    if !s.EnableBridge? {
      SettingKeepsTimers(s, b);
      SameTimersKeepExact(b, r);
      ExactIsNotStale(r);
    } else if r == b {
      ExactIsNotStale(b);
    }
  }

  lemma ConfigureKeepsExact(s: Setting, b: BState)
    requires Inv(b) && Exact(b)
    ensures Exact(After(Configure(s), b))
  {
    var r := SettingKeepsExact(s, b);
    if Restarts(s, b) && r.cfg.enabled { BeginMakesFlagExact(r); }
  }

  // ---- Histories ----

  lemma EventKeepsExact(e: Event, b: BState)
    requires Inv(b) && Good(b) && Meets(e, b) && Exact(b)
    ensures Exact(After(e, b))
  {
    match e
    case RunPass =>
      if b.cfg.enabled {
        GoodIsReady(b);
        ReadyPassKeepsFlag(b);
      }
    case OneSecond => if b.cfg.enabled { SecondKeepsFlag(b); }
    case BeginAll =>
      if b.cfg.enabled {
        ExactIsNotStale(b);
        BeginMakesFlagExact(b);
      }
    case Configure(s) => ConfigureKeepsExact(s, b);
    case OnPorts(p) =>
      PortEventDoneKeepsInv(p, b);
      if !Exists(p, b) {
        NoSuchPort(p, b);
      } else if b.cfg.enabled {
        PortEventKeepsFlag(p, b);
      } else {
        DisabledPortEventKeepsFlagDown(p, b);
      }
  }

  /** Every event of the history meets what it needs when it arrives. */
  ghost predicate AllMeet(es: seq<Event>, b: BState) {
    es == [] || (Meets(es[0], b) && AllMeet(es[1..], After(es[0], b)))
  }

  lemma {:induction false} HistoryKeepsExact(es: seq<Event>, b: BState)
    requires Inv(b) && Good(b) && Exact(b) && AllMeet(es, b)
    ensures Good(Last(es, b)) && Exact(Last(es, b))
    decreases |es|
  {
    if es != [] {
      EventKeepsInv(es[0], b);
      EventKeepsGood(es[0], b);
      EventKeepsExact(es[0], b);
      HistoryKeepsExact(es[1..], After(es[0], b));
    }
  }

  /** Since the bridge was created, whenever it is enabled: the flag is up exactly while some port's timer runs,
      whatever ports are added and deleted. */
  lemma FlagExactInEveryRun(es: seq<Event>, b: BState)
    requires Created(b) && AllMeet(es, b)
    ensures Last(es, b).cfg.enabled ==> TC.FlagOk(Last(es, b).tree)
  {
    HistoryKeepsExact(es, b);
  }
}
