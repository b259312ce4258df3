/** In every history the edge variables of the ports of an enabled bridge agree, so that in every pass every machine
    settles on every port. */
module SettledRuns {
  import opened Types
  import opened Driver
  import opened PassStages
  import opened Settling
  import opened Runs
  import opened SteadyRuns
  import PM = PortMachines
  import TC = TopologyChange

  ghost predicate AllFit(b: BState) {
    |b.ports| == |b.tree.ptps| && forall i: nat :: i < |b.ports| ==> HoldsAt(b, i, Fitting())
  }

  /** The invariant: nothing is said of the ports of a bridge that is not enabled. */
  ghost predicate Fit(b: BState) {
    b.cfg.enabled ==> AllFit(b)
  }

  lemma FitPorts(b: BState, r: BState)
    requires |r.ports| == |b.ports| == |r.tree.ptps| && AllFit(b)
    requires forall i :: 0 <= i < |b.ports| && EdgeFits(b.ports[i]) ==> EdgeFits(r.ports[i])
    ensures AllFit(r)
  {
    forall i: nat | i < |r.ports|
      ensures HoldsAt(r, i, Fitting())
    {
      assert HoldsAt(b, i, Fitting());
    }
  }

  lemma PassFits(b: BState)
    requires Inv(b) && AllFit(b)
    ensures AllFit(Pass(b))
  {
    forall i: nat | i < |b.ports|
      ensures HoldsAt(Pass(b), i, Fitting())
    {
      assert HoldsAt(b, i, Fitting());
      PassKeepsEdge(b, i);
    }
  }

  lemma PassesFit(b: BState, n: nat)
    requires Inv(b) && AllFit(b)
    ensures AllFit(Passes(b, n))
  {
    forall c: BState | Inv(c) && AllFit(c)
      ensures AllFit(Pass(c))
    {
      PassFits(c);
    }
    KeptByPasses((c: BState) => AllFit(c), b, n);
  }

  lemma FittingIsPrivate()
    ensures Private(Fitting())
  {
  }

  lemma TickLeads(cfg: Config)
    ensures Spares(Tick, Fitting()) && LeadsBy(Tick, cfg, Fitting(), Fitting())
  {
    forall b, j: nat, i: nat | Inv(b) && j < |b.ports| && HoldsAt(b, i, Fitting())
      ensures HoldsAt(Tick(b, j), i, Fitting())
    {
      TickAt(b, j);
      if i != j { assert ElsewhereAt(b, TickPort(b, j), i); }
    }
  }

  lemma TicksFit(b: BState)
    requires Inv(b) && AllFit(b)
    ensures AllFit(InTurn(Tick, b, |b.ports|))
  {
    TickIsHarmless();
    TickLeads(b.cfg);
    InTurnKeepsInv(Tick, b, |b.ports|);
    forall i: nat | i < |b.ports|
      ensures HoldsAt(InTurn(Tick, b, |b.ports|), i, Fitting())
    {
      assert HoldsAt(b, i, Fitting());
      AllLead(Tick, b, |b.ports|, i, Fitting(), Fitting());
    }
  }

  lemma SecondFits(b: BState)
    requires Inv(b) && AllFit(b)
    ensures AllFit(Ticked(b))
  {
    var b1 := b.(tree := if b.tree.topologyChange then b.tree else b.tree.(timeSinceTc := b.tree.timeSinceTc + 1));
    SameEntriesKeepInv(b, b1);
    FitPorts(b, b1);
    TicksFit(b1);
  }

  lemma TcBeginFits(cfg: Config)
    ensures Spares(TcBegin, Fitting()) && LeadsBy(TcBegin, cfg, Fitting(), Fitting())
  {
    FittingIsPrivate();
    TcBeginSpares(Fitting());
    forall b, i: nat | Inv(b) && b.cfg == cfg && HoldsAt(b, i, Fitting())
      ensures HoldsAt(TcBegin(b, i), i, Fitting())
    {
      TcBegunAtOwn(b, i);
    }
  }

  lemma TcBeginsFit(b: BState)
    requires Inv(b) && AllFit(b)
    ensures AllFit(InTurn(TcBegin, b, |b.ports|))
  {
    TcBeginIsHarmless();
    TcBeginFits(b.cfg);
    InTurnKeepsInv(TcBegin, b, |b.ports|);
    forall i: nat | i < |b.ports|
      ensures HoldsAt(InTurn(TcBegin, b, |b.ports|), i, Fitting())
    {
      assert HoldsAt(b, i, Fitting());
      AllLead(TcBegin, b, |b.ports|, i, Fitting(), Fitting());
    }
  }

  /** After the begin actions the variables agree, whatever they were. */
  lemma BeginFits(b: BState)
    requires Inv(b)
    ensures AllFit(Begin(b))
  {
    var c := BegunAll(b);
    BegunAllKeepsInv(b);
    forall i: nat | i < |c.ports|
      ensures HoldsAt(c, i, Fitting())
    {
      assert EdgeFits(BegunPort(b.ports[i], b.cfg));
    }
    TcBeginsFit(c);
  }

  /** The ports after the begin of one of them. */
  lemma PortBegunPorts(b: BState, i: nat) returns (r: BState)
    requires Inv(b) && i < |b.ports|
    ensures r == PortBegun(b, i) && Inv(r) && |r.ports| == |b.ports| && EdgeFits(r.ports[i])
    ensures forall j :: 0 <= j < |b.ports| && j != i ==> r.ports[j] == b.ports[j]
  {
    var b3 := RolesBegunPorts(b, i);
    r := TcBegunAt(b3, i);
    TcBegunAtKeepsInv(b3, i);
    TcBegunAtOwn(b3, i);
    forall j | 0 <= j < |b.ports| && j != i
      ensures r.ports[j] == b.ports[j]
    {
      assert ElsewhereAt(b3, r, j);
    }
  }

  lemma RolesBegunPorts(b: BState, i: nat) returns (b3: BState)
    requires Inv(b) && i < |b.ports|
    ensures Inv(InfoBegunAt(b, i)) && Inv(SelectRoles(InfoBegunAt(b, i)))
    ensures b3 == RolesBegunAt(SelectRoles(InfoBegunAt(b, i)), i) && Inv(b3)
    ensures b3.ports == b.ports[i := BegunPort(b.ports[i], b.cfg)]
  {
    InfoBegunAtKeepsInv(b, i);
    var b1 := InfoBegunAt(b, i);
    SelectionKeepsInv(b1);
    SelectionKeepsPorts(b1);
    var b2 := SelectRoles(b1);
    RolesBegunAtKeepsInv(b2, i);
    b3 := RolesBegunAt(b2, i);
  }

  lemma SelectionKeepsPorts(b: BState)
    requires |b.ports| == |b.tree.ptps|
    ensures SelectRoles(b).ports == b.ports
  {
  }

  lemma AdditionFits(b: BState, portId: u16, cost: u32)
    requires Inv(b) && b.cfg.enabled && AllFit(b)
    ensures AllFit(PortEventDone(AddPort(portId, cost), b))
  {
    AdditionIsBegun(b, portId, cost);
    var r := PortBegunPorts(Added(b, portId, cost), |b.ports|);
    AddedFits(b, portId, cost, r);
  }

  lemma AddedFits(b: BState, portId: u16, cost: u32, r: BState)
    requires AllFit(b) && |r.ports| == |b.ports| + 1 == |r.tree.ptps| && EdgeFits(r.ports[|b.ports|])
    requires forall j :: 0 <= j < |b.ports| ==> r.ports[j] == Added(b, portId, cost).ports[j]
    ensures AllFit(r)
  {
    forall j: nat | j < |r.ports|
      ensures HoldsAt(r, j, Fitting())
    {
      if j < |b.ports| { assert HoldsAt(b, j, Fitting()); }
    }
  }

  lemma SeenFits(p: PortEvent, b: BState, first: BState)
    requires Inv(first) && Exists(p, b) && AllFit(first)
    ensures AllFit(Seen(p, b, first))
  {
    if TakesDown(p, b) {
      PassFits(first);
      if p.DeletePort? { PassesFit(Pass(first), p.passes); }
    }
  }

  lemma RemovalFits(b: BState, i: nat)
    requires i < |b.ports| && AllFit(b)
    ensures AllFit(Removed(b, i))
  {
    var r := Removed(b, i);
    forall j: nat | j < |r.ports|
      ensures HoldsAt(r, j, Fitting())
    {
      assert HoldsAt(b, if j < i then j else j + 1, Fitting());
    }
  }

  lemma PortEventFits(p: PortEvent, b: BState)
    requires Inv(b) && b.cfg.enabled && Exists(p, b) && AllFit(b)
    ensures AllFit(PortEventDone(p, b))
  {
    PortEventKeepsInv(p, b);
    var first := AfterPortEvent(p, b);
    if p.AddPort? {
      AdditionFits(b, p.portId, p.internalCost);
    } else {
      FitPorts(b, first);
      SeenFits(p, b, first);
      if p.DeletePort? { RemovalFits(Seen(p, b, first), p.i); }
    }
  }

  lemma ConfigureFits(s: Setting, b: BState)
    requires Inv(b) && Fit(b)
    ensures Fit(After(Configure(s), b))
  {
    var r := AfterSetting(s, b);
    SettingKeepsInv(s, b);
    if Restarts(s, b) {
      if r.cfg.enabled { BeginFits(r); }
    } else if r.cfg.enabled {
      QuietSettingFits(s, b);
    }
  }

  lemma QuietSettingFits(s: Setting, b: BState)
    requires Inv(b) && Fit(b) && !Restarts(s, b) && AfterSetting(s, b).cfg.enabled
    ensures AllFit(AfterSetting(s, b))
  {
    SettingKeepsInv(s, b);
    SettingKeepsTree(s, b);
    var r := AfterSetting(s, b);
    forall i | 0 <= i < |b.ports|
      ensures MildAt(b, r, i)
    {
      SettingIsMild(s, b, i);
    }
    FitPorts(b, r);
  }

  lemma EventFits(e: Event, b: BState)
    requires Inv(b) && Fit(b)
    ensures Fit(After(e, b))
  {
    match e
    case RunPass => if b.cfg.enabled { PassFits(b); }
    case OneSecond => if b.cfg.enabled { SecondFits(b); }
    case BeginAll => if b.cfg.enabled { BeginFits(b); }
    case Configure(s) => ConfigureFits(s, b);
    case OnPorts(p) =>
      PortEventDoneKeepsInv(p, b);
      if !Exists(p, b) { NoSuchPort(p, b); } else if b.cfg.enabled { PortEventFits(p, b); }
  }

  lemma {:induction false} HistoryFits(es: seq<Event>, b: BState)
    requires Inv(b) && Fit(b)
    ensures Fit(Last(es, b))
    decreases |es|
  {
    if es != [] {
      EventKeepsInv(es[0], b);
      EventFits(es[0], b);
      HistoryFits(es[1..], After(es[0], b));
    }
  }

  /** Whatever happened since the bridge was created, in every pass every machine settles: after it has run on a port, a
      dry run of it on that port reports nothing. */
  lemma EveryTurnOfEveryRunSettles(es: seq<Event>, b: BState, k: nat, i: nat)
    requires Created(b) && Last(es, b).cfg.enabled && k < PHASES && i < |Last(es, b).ports|
    ensures !Enabled(Turn(k), RunOn(Turn(k), TurnStart(Last(es, b), k, i), i), i)
  {
    HistoryFits(es, b);
    HistoryKeepsInv(es, b);
    assert HoldsAt(Last(es, b), i, Fitting());
    EveryTurnSettles(Last(es, b), k, i);
  }
}
