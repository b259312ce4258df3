/** The times of the Root: they are not all 0 as long as no bridge of the region sends them so. A topology change timer
    that a port starts then really runs. */
module LiveTimes {
  import opened Types
  import opened Driver
  import opened PassStages
  import PI = PortInfo
  import PIT = PortInfoTheorems
  import PM = PortMachines
  import Roles
  import RoleTheorems

  predicate Live(t: Times) {
    t.maxAge + t.forwardDelay > 0
  }

  /** A message that carries no times, or such that are not both 0. */
  predicate LiveMessage(b: Bpdu) {
    b.bpduType == TypeTcn || PI.NearestSecond(b.maxAge) + PI.NearestSecond(b.forwardDelay) > 0
  }

  /** Received information has times, and so has a message of the region that is still to be read. */
  predicate Timed(prt: Port, p: Ptp, cfg: Config) {
    && p.pism != PiReceive && (p.infoIs == IoReceived ==> Live(p.portTimes))
    && (prt.rcvdBpdu.On? && PM.FromSameRegion(prt, cfg) ==> LiveMessage(prt.bpdu))
    && (p.rcvdMsg.On? && prt.rcvdInternal.On? ==> LiveMessage(prt.bpdu))
  }

  ghost function TimedIn(cfg: Config): PortProp {
    (prt: Port, p: Ptp) => Timed(prt, p, cfg)
  }

  ghost function TimesPlan(cfg: Config): Plan {
    Plan(_ => TimedIn(cfg), TimedIn(cfg))
  }

  // ---- The run of the information machine ----

  /** What holds on the way: information without times has no lifetime, and is given up before the run ends. */
  predicate Going(c: PI.Column, cfg: Config)
    requires |c.ptps| > 0
  {
    var p := c.ptps[0];
    && p.mstid == 0 && (p.rcvdMsg.On? && c.prt.rcvdInternal.On? ==> LiveMessage(c.prt.bpdu))
    && (p.infoIs == IoReceived ==>
          Live(p.portTimes) || (p.rcvdInfoWhile == 0 && p.updtInfo.Off? && p.rcvdMsg.Off?))
    && (p.pism == PiReceive ==> p.rcvdMsg.On? && p.updtInfo.Off?)
    && (p.pism == PiReceive && p.rcvdInfo == SuperiorDesignated ==>
          c.prt.bpdu.bpduType != TypeTcn && p.msgTimes == PI.CistTimes(c.prt.bpdu, cfg.maxHops))
  }

  lemma ReceiveDecodes(c: PI.Column, cfg: Config)
    requires |c.ptps| > 0 && c.ptps[0].mstid == 0
    ensures var q := PI.Enter(c, 0, PiReceive, cfg).ptps[0];
            q.rcvdInfo == SuperiorDesignated ==>
              c.prt.bpdu.bpduType != TypeTcn && q.msgTimes == PI.CistTimes(c.prt.bpdu, cfg.maxHops)
  {
    var c2 := PI.RcvInfo(PI.Mark(c, 0, PiReceive), 0, cfg);
    assert PI.Enter(c, 0, PiReceive, cfg).ptps[0] == PI.RecordMastered(c2, 0).ptps[0];
    RcvInfoDecodes(PI.Mark(c, 0, PiReceive), cfg);
    MasteredKeepsInfo(c2);
  }

  lemma MasteredKeepsInfo(c: PI.Column)
    requires |c.ptps| > 0
    ensures var q := PI.RecordMastered(c, 0).ptps[0];
            q.rcvdInfo == c.ptps[0].rcvdInfo && q.msgTimes == c.ptps[0].msgTimes
  {
  }

  lemma RcvInfoDecodes(c: PI.Column, cfg: Config)
    requires |c.ptps| > 0 && c.ptps[0].mstid == 0
    ensures var q := PI.RcvInfo(c, 0, cfg).ptps[0];
            q.rcvdInfo == SuperiorDesignated ==>
              c.prt.bpdu.bpduType != TypeTcn && q.msgTimes == PI.CistTimes(c.prt.bpdu, cfg.maxHops)
  {
  }

  lemma StepGoesOn(c: PI.Column, cfg: Config)
    requires |c.ptps| > 0 && Going(c, cfg) && PI.Target(c, 0).Some?
    ensures Going(PI.Enter(c, 0, PI.Target(c, 0).value, cfg), cfg)
  {
    var x := PI.Target(c, 0).value;
    PI.EnterControls(c, 0, x, cfg);
    if x == PiReceive { ReceiveDecodes(c, cfg); }
    ControlledGoesOn(c, PI.Enter(c, 0, x, cfg), cfg);
  }

  lemma ControlledGoesOn(c: PI.Column, r: PI.Column, cfg: Config)
    requires |c.ptps| == |r.ptps| > 0 && Going(c, cfg) && PI.Target(c, 0).Some?
    requires PI.Framed(c, r, 0) && PI.Controlled(c, r, 0, PI.Target(c, 0).value)
    requires r.ptps[0].pism == PiReceive && r.ptps[0].rcvdInfo == SuperiorDesignated ==>
               r.prt.bpdu.bpduType != TypeTcn && r.ptps[0].msgTimes == PI.CistTimes(r.prt.bpdu, cfg.maxHops)
    ensures Going(r, cfg)
  {
    if PI.Target(c, 0).value == PiSuperior { SuperiorGoesOn(c, r, cfg); }
  }

  lemma SuperiorGoesOn(c: PI.Column, r: PI.Column, cfg: Config)
    requires |c.ptps| == |r.ptps| > 0 && Going(c, cfg) && PI.Target(c, 0) == Some(PiSuperior)
    requires PI.Framed(c, r, 0) && PI.Controlled(c, r, 0, PiSuperior)
    ensures Going(r, cfg)
  {
  }

  lemma {:induction false} RunGoesOn(c: PI.Column, cfg: Config)
    requires |c.ptps| > 0 && Going(c, cfg)
    ensures Going(PI.Rest(c, 0, cfg), cfg)
    decreases PI.Measure(c, 0)
  {
    if PI.Target(c, 0).Some? {
      PI.StepDecreases(c, 0, cfg);
      StepGoesOn(c, cfg);
      RunGoesOn(PI.Enter(c, 0, PI.Target(c, 0).value, cfg), cfg);
    }
  }

  lemma InformationTimed(c: PI.Column, cfg: Config)
    requires |c.ptps| > 0 && c.ptps[0].mstid == 0 && PIT.OriginFits(c.ptps[0]) && Timed(c.prt, c.ptps[0], cfg)
    ensures var r := PI.Rest(c, 0, cfg); Timed(r.prt, r.ptps[0], cfg)
  {
    RunGoesOn(c, cfg);
    PIT.RestComesToRest(c, 0, cfg);
    PIT.RestIsFramed(c, 0, cfg);
    RestingTimed(c, PI.Rest(c, 0, cfg), cfg);
  }

  lemma RestingTimed(c: PI.Column, r: PI.Column, cfg: Config)
    requires |c.ptps| == |r.ptps| > 0 && Timed(c.prt, c.ptps[0], cfg) && PI.PortFrame(c.prt, r.prt) && Going(r, cfg)
    requires PI.Target(r, 0).None? && PIT.OriginFits(r.ptps[0])
    requires var x := r.ptps[0].pism; x == PiDisabled || x == PiAged || x == PiCurrent
    ensures Timed(r.prt, r.ptps[0], cfg)
  {
  }

  // ---- The other machines ----

  lemma ReceiveTimed(c: PI.Column, cfg: Config)
    requires PI.ColumnOk(c) && Timed(c.prt, c.ptps[0], cfg)
    ensures var r := PM.PrsmRun(c, cfg); Timed(r.prt, r.ptps[0], cfg)
  {
  }

  lemma OthersTimed(m: Machine, prt: Port, p: Ptp, prt': Port, q: Ptp, cfg: Config)
    requires m != Receive && m != Information && OwnChange(m, prt, p, prt', q) && Timed(prt, p, cfg)
    ensures Timed(prt', q, cfg)
  {
  }

  lemma TimesLead(m: Machine, cfg: Config)
    ensures Leads(m, cfg, TimedIn(cfg), TimedIn(cfg))
  {
    forall b, i: nat | Inv(b) && b.cfg == cfg && HoldsAt(b, i, TimedIn(cfg))
      ensures HoldsAt(RunOn(m, b, i), i, TimedIn(cfg))
    {
      RunIsConfined(m, b, i);
      RunTimed(m, b, i);
    }
  }

  lemma RunTimed(m: Machine, b: BState, i: nat)
    requires Inv(b) && i < |b.ports| && Timed(b.ports[i], b.tree.ptps[i], b.cfg)
    ensures var r := RunOn(m, b, i); i < |r.ports| && i < |r.tree.ptps| && Timed(r.ports[i], r.tree.ptps[i], b.cfg)
  {
    assert EntryAt(b, i);
    RunIsConfined(m, b, i);
    match m
    case Receive => ReceiveTimed(ColumnOf(b, i), b.cfg);
    case Information => InformationTimed(ColumnOf(b, i), b.cfg);
    case _ =>
      OthersTimed(m, b.ports[i], b.tree.ptps[i], RunOn(m, b, i).ports[i], RunOn(m, b, i).tree.ptps[i], b.cfg);
  }

  lemma TimesSelectionLeads(cfg: Config)
    ensures SelectionLeads(cfg, TimedIn(cfg), TimedIn(cfg))
  {
    forall b, i: nat | Inv(b) && b.cfg == cfg && HoldsAt(b, i, TimedIn(cfg))
      ensures HoldsAt(SelectRoles(b), i, TimedIn(cfg))
    {
      SelectionTimed(b, i);
    }
  }

  lemma SelectionTimed(b: BState, i: nat)
    requires Inv(b) && i < |b.ports| && Timed(b.ports[i], b.tree.ptps[i], b.cfg)
    ensures Timed(SelectRoles(b).ports[i], SelectRoles(b).tree.ptps[i], b.cfg)
  {
    if SelectionEnabled(b) { SelectedEntry(b, i); }
  }

  lemma TimesPlanIsSound(cfg: Config)
    ensures Sound(TimesPlan(cfg), cfg)
  {
    TimesSelectionLeads(cfg);
    forall k: nat | k < PHASES
      ensures LeadsAt(TimesPlan(cfg), cfg, k)
    {
      TimesLead(Turn(k), cfg);
      TimedIsPrivate(cfg);
    }
  }

  lemma TimedIsPrivate(cfg: Config)
    ensures Private(TimedIn(cfg))
  {
  }

  // ---- The root times ----

  /** The times of the Root are live, once a role selection has been made. */
  predicate TreeLive(t: Tree) {
    Live(t.bridgeTimes) && (t.prssm != InitTree ==> Live(t.rootTimes))
  }

  ghost predicate AllTimed(b: BState) {
    forall i: nat :: i < |b.ports| ==> HoldsAt(b, i, TimedIn(b.cfg))
  }

  lemma NextRootTimesLive(tree: Tree, ports: seq<Port>)
    requires |tree.ptps| == |ports| && Live(tree.bridgeTimes)
    requires forall i :: 0 <= i < |ports| && tree.ptps[i].infoIs == IoReceived ==> Live(tree.ptps[i].portTimes)
    ensures Live(Roles.NextRootTimes(tree, ports, Roles.RootOf(tree, ports).index))
  {
    RoleTheorems.ScanIsMinimum(tree, ports, |ports|);
  }

  lemma SelectionLive(b: BState)
    requires Inv(b) && TreeLive(b.tree) && AllTimed(b)
    ensures TreeLive(SelectRoles(b).tree) && Live(SelectRoles(b).tree.rootTimes)
  {
    if SelectionEnabled(b) {
      var t := ClearedTree(b.tree);
      forall i | 0 <= i < |b.ports| && t.ptps[i].infoIs == IoReceived
        ensures Live(t.ptps[i].portTimes)
      {
        assert HoldsAt(b, i, TimedIn(b.cfg));
      }
      NextRootTimesLive(t, b.ports);
    }
  }

  lemma {:induction false} ReachedLive(b: BState, k: nat)
    requires Inv(b) && TreeLive(b.tree) && AllTimed(b) && k <= PHASES
    ensures TreeLive(Reached(b, k).tree) && (k > 6 ==> Live(Reached(b, k).tree.rootTimes))
    decreases k
  {
    if k > 0 {
      ReachedLive(b, k - 1);
      NextLive(b, k - 1);
    } else {
      NothingRun(b);
    }
  }

  lemma NextLive(b: BState, k: nat)
    requires Inv(b) && AllTimed(b) && k < PHASES
    requires TreeLive(Reached(b, k).tree) && (k > 6 ==> Live(Reached(b, k).tree.rootTimes))
    ensures TreeLive(Reached(b, k + 1).tree) && (k >= 6 ==> Live(Reached(b, k + 1).tree.rootTimes))
  {
    StartLive(b, k);
    NextPhase(b, k);
    PhaseKeepsTree(Turn(k), PhaseStart(b, k));
  }

  lemma StartLive(b: BState, k: nat)
    requires Inv(b) && AllTimed(b) && k < PHASES
    requires TreeLive(Reached(b, k).tree) && (k > 6 ==> Live(Reached(b, k).tree.rootTimes))
    ensures TreeLive(PhaseStart(b, k).tree) && (k >= 6 ==> Live(PhaseStart(b, k).tree.rootTimes))
  {
    if k == 6 {
      var r := Reached(b, 6);
      TimesPlanIsSound(b.cfg);
      forall i: nat | i < |r.ports|
        ensures HoldsAt(r, i, TimedIn(r.cfg))
      {
        assert HoldsAt(b, i, TimedIn(b.cfg));
        PlanHolds(TimesPlan(b.cfg), b, i, 6);
      }
      SelectionLive(r);
    }
  }

  /** When the pass comes to the Topology Change machines the root times are live, and everything is as live as
      before. */
  lemma PassKeepsLive(b: BState)
    requires Inv(b) && TreeLive(b.tree) && AllTimed(b)
    ensures Live(PhaseStart(b, 8).tree.rootTimes) && TreeLive(Pass(b).tree) && AllTimed(Pass(b))
  {
    ReachedLive(b, 8);
    StartLive(b, 8);
    ReachedLive(b, PHASES);
    TimesPlanIsSound(b.cfg);
    forall i: nat | i < |b.ports|
      ensures HoldsAt(Pass(b), i, TimedIn(b.cfg))
    {
      assert HoldsAt(b, i, TimedIn(b.cfg));
      PlanHoldsAtEnd(TimesPlan(b.cfg), b, i);
    }
  }
}
