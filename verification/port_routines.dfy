/** The routines of the Port Receive, Port Protocol Migration, Bridge Detection, Port Transmit and Port State Transition
    machines, which update the bridge object in place, for any number of trees. */
module PortRoutines {
  import opened Types
  import opened BridgeObject
  import PI = PortInfo
  import PM = PortMachines
  import TX = Transmit

  // ---- Port Receive ----

  /** The loop over the MSTI messages of the BPDU. */
  method FindMessage(t: MstiTable, n: nat, mstid: u16) returns (found: Option<MstiIndex>)
    ensures found == PM.FindMsti(t, n, mstid, 0)
  {
    var j: nat := 0;
    while j < n && j < MAX_STANDARD_MSTIS
      invariant PM.FindMsti(t, n, mstid, 0) == PM.FindMsti(t, n, mstid, j)
      decreases n - j
    {
      if t[j].rrootId.priority % 0x1000 == mstid { return Some(j); }
      j := j + 1;
    }
    return None;
  }

  /** The column in which the messages have been delivered to the trees before `u`. */
  ghost function DeliveredUpTo(c: PI.Column, u: nat): (r: PI.Column)
    ensures |r.ptps| == |c.ptps|
  {
    c.(ptps := seq(|c.ptps|, j requires 0 <= j < |c.ptps| =>
                     if j < u then PM.DeliveredTo(c.ptps[j], c.prt) else c.ptps[j]))
  }

  /** One more tree: its message, if the BPDU holds one. */
  method DeliverTo(b: Bridge, u: nat, i: nat, ghost was: Snapshot, ghost c: PI.Column)
    requires Holds(b, was, i, DeliveredUpTo(c, u)) && 0 < u < |c.ptps| && PI.ColumnOk(c) && c.prt.rcvdInternal.On?
    modifies b`trees
    ensures Holds(b, was, i, DeliveredUpTo(c, u + 1))
  {
    ghost var d := DeliveredUpTo(c, u);
    ReadColumn(b, was, i, d);
    var p, prt := b.trees[u].ptps[i], b.ports[i];
    var found := FindMessage(prt.bpdu.mstis, prt.numMstis, p.mstid);
    if found.Some? {
      var q := p.(rcvdMsg := On, rcvdMsti := found.value);
      PutEntry(b, u, i, q, was, d);
      assert q == PM.DeliveredTo(c.ptps[u], c.prt);
      assert PI.Put(d, u, q).ptps == DeliveredUpTo(c, u + 1).ptps;
    } else {
      assert p == PM.DeliveredTo(c.ptps[u], c.prt);
      assert d.ptps == DeliveredUpTo(c, u + 1).ptps;
    }
  }

  lemma OnlyTheCist(c: PI.Column)
    requires PI.ColumnOk(c) && c.prt.rcvdInternal.Off?
    ensures DeliveredUpTo(c, 1) == DeliveredUpTo(c, |c.ptps|)
  {
    assert DeliveredUpTo(c, 1).ptps == DeliveredUpTo(c, |c.ptps|).ptps;
  }

  /** `setRcvdMsgs`. */
  method SetRcvdMsgs(b: Bridge, i: nat, ghost was: Snapshot, ghost c: PI.Column)
    requires Holds(b, was, i, c) && PI.ColumnOk(c)
    modifies b`trees
    ensures Holds(b, was, i, DeliveredUpTo(c, |c.ptps|))
  {
    ReadColumn(b, was, i, c);
    PutEntry(b, 0, i, b.trees[0].ptps[i].(rcvdMsg := On), was, c);
    assert PI.Put(c, 0, c.ptps[0].(rcvdMsg := On)).ptps == DeliveredUpTo(c, 1).ptps;
    if b.ports[i].rcvdInternal.Off? {
      OnlyTheCist(c);
      return;
    }
    for u := 1 to |b.trees|
      invariant Holds(b, was, i, DeliveredUpTo(c, u))
    {
      DeliverTo(b, u, i, was, c);
    }
  }

  method ToReceive(b: Bridge, i: nat, ghost was: Snapshot, ghost c: PI.Column)
    requires Holds(b, was, i, c) && PI.ColumnOk(c) && PM.PrsmTarget(c, b.cfg) == Some(RxReceive)
    modifies b`ports, b`trees
    ensures Holds(b, was, i, PM.PrsmRun(c, b.cfg))
  {
    ReadColumn(b, was, i, c);
    var prt := b.ports[i].(prsm := RxReceive);
    if prt.bpdu.version != ProtoSTP {
      prt := prt.(rcvdRSTP := On);
    } else {
      prt := prt.(rcvdSTP := On);
    }
    prt := prt.(rcvdInternal := FlagOf(prt.bpdu.version == ProtoMSTP && b.cfg.configId == prt.bpdu.configId));
    prt := prt.(operEdge := Off, rcvdBpdu := Off, edgeDelayWhile := b.cfg.migrateTime);
    PutPort(b, i, prt, was, c);
    SetRcvdMsgs(b, i, was, c.(prt := prt));
    assert DeliveredUpTo(c.(prt := prt), |c.ptps|).ptps == PM.PrsmRun(c, b.cfg).ptps;
  }

  /** `clearAllRcvdMsgs`, which in a dry run only tells whether a message is there. */
  method ClearAllRcvdMsgs(b: Bridge, i: nat, dry: bool, ghost was: Snapshot, ghost c: PI.Column) returns (changed: bool)
    requires Holds(b, was, i, c) && |c.ptps| > 0
    modifies b`trees
    ensures dry ==> b.trees == old(b.trees) && (changed <==> PM.ClearDry(c.ptps))
    ensures !dry ==> !changed && Holds(b, was, i, Spread(c, -1, |c.ptps|, (q: Ptp) => q.(rcvdMsg := Off)))
  {
    ReadColumn(b, was, i, c);
    if dry {
      for u := 0 to |b.trees|
        invariant forall j :: 0 <= j < u ==> c.ptps[j].rcvdMsg.Off?
      {
        if b.trees[u].ptps[i].rcvdMsg.On? {
          assert c.ptps[u].rcvdMsg.On?;
          return true;
        }
      }
      return false;
    }
    ForFurtherTrees(b, -1, i, (q: Ptp) => q.(rcvdMsg := Off), was, c);
    return false;
  }

  /** `PRSM_to_DISCARD`, with the test of its own that it makes in a dry run. */
  method ToDiscard(b: Bridge, i: nat, dry: bool, ghost was: Snapshot, ghost c: PI.Column) returns (changed: bool)
    requires Holds(b, was, i, c) && |c.ptps| > 0
    modifies b`ports, b`trees
    ensures dry ==> b.ports == old(b.ports) && b.trees == old(b.trees) && (changed <==> PM.DiscardDry(c, b.cfg))
    ensures !dry ==> !changed && Holds(b, was, i, PM.Discarded(c, b.cfg))
  {
    var prt := b.ports[i];
    if dry {
      if prt.prsm != RxDiscard || prt.rcvdBpdu.On? || prt.rcvdRSTP.On? || prt.rcvdSTP.On?
         || prt.edgeDelayWhile != b.cfg.migrateTime {
        return true;
      }
      changed := ClearAllRcvdMsgs(b, i, dry, was, c);
      return;
    }
    prt := prt.(prsm := RxDiscard, rcvdBpdu := Off, rcvdRSTP := Off, rcvdSTP := Off,
                edgeDelayWhile := b.cfg.migrateTime);
    PutPort(b, i, prt, was, c);
    changed := ClearAllRcvdMsgs(b, i, dry, was, c.(prt := prt));
    assert Spread(c.(prt := prt), -1, |c.ptps|, (q: Ptp) => q.(rcvdMsg := Off)).ptps == PM.Discarded(c, b.cfg).ptps;
  }

  /** `PRSM_run`. */
  method PrsmRun(b: Bridge, i: nat, dry: bool, ghost was: Snapshot, ghost c: PI.Column) returns (changed: bool)
    requires Holds(b, was, i, c) && PI.ColumnOk(c)
    modifies b`ports, b`trees
    ensures dry ==> b.ports == old(b.ports) && b.trees == old(b.trees) && (changed <==> PM.PrsmDry(c, b.cfg))
    ensures !dry ==> !changed && Holds(b, was, i, PM.PrsmRun(c, b.cfg))
  {
    ReadColumn(b, was, i, c);
    var prt := b.ports[i];
    if (prt.rcvdBpdu.On? || prt.edgeDelayWhile != b.cfg.migrateTime) && prt.portEnabled.Off? {
      changed := ToDiscard(b, i, dry, was, c);
      return;
    }
    if prt.rcvdBpdu.Off? || prt.portEnabled.Off? { return false; }
    if prt.prsm == RxReceive {
      var pending := ClearAllRcvdMsgs(b, i, true, was, c);
      if pending { return false; }
    }
    if dry { return true; }
    ToReceive(b, i, was, c);
    return false;
  }

  // ---- Port Protocol Migration ----

  /** The `PPMSM_to_X` routines up to their call of `PPMSM_run`. */
  method MigrationState(b: Bridge, i: nat, x: PpmsmState)
    requires i < |b.ports|
    modifies b`ports
    ensures b.ports == old(b.ports)[i := PM.PpmsmEnter(old(b.ports[i]), x, b.cfg)]
  {
    var prt := b.ports[i].(ppmsm := x);
    match x {
      case CheckingRstp =>
        prt := prt.(mcheck := Off);
        prt := prt.(sendRSTP := FlagOf(RstpVersion(b.cfg)));
        prt := prt.(mdelayWhile := b.cfg.migrateTime);
      case SelectingStp =>
        prt := prt.(sendRSTP := Off);
        prt := prt.(mdelayWhile := b.cfg.migrateTime);
      case Sensing =>
        prt := prt.(rcvdRSTP := Off);
        prt := prt.(rcvdSTP := Off);
    }
    b.ports := b.ports[i := prt];
  }

  /** `PPMSM_run`. */
  method PpmsmRun(b: Bridge, i: nat, dry: bool) returns (changed: bool)
    requires i < |b.ports|
    modifies b`ports
    ensures dry ==> b.ports == old(b.ports) && (changed <==> PM.PpmsmTarget(old(b.ports[i]), b.cfg).Some?)
    ensures !dry ==> !changed && b.ports == old(b.ports)[i := PM.PpmsmRun(old(b.ports[i]), b.cfg)]
    ensures !dry && b.cfg.migrateTime > 0 ==> PM.PpmsmTarget(b.ports[i], b.cfg).None?
    decreases PM.PpmsmWork(b.ports[i])
  {
    if b.cfg.migrateTime > 0 { PM.PpmsmComesToRest(b.ports[i], b.cfg); }
    var prt, x: Option<PpmsmState> := b.ports[i], None;
    match prt.ppmsm {
      case CheckingRstp =>
        if prt.mdelayWhile != b.cfg.migrateTime && prt.portEnabled.Off? {
          x := Some(CheckingRstp);
        } else if prt.mdelayWhile == 0 {
          x := Some(Sensing);
        }
      case SelectingStp =>
        if prt.mdelayWhile == 0 || prt.portEnabled.Off? || prt.mcheck.On? { x := Some(Sensing); }
      case Sensing =>
        if prt.portEnabled.Off? || prt.mcheck.On? || (RstpVersion(b.cfg) && prt.sendRSTP.Off? && prt.rcvdRSTP.On?) {
          x := Some(CheckingRstp);
        } else if prt.sendRSTP.On? && prt.rcvdSTP.On? {
          x := Some(SelectingStp);
        }
    }
    if x.None? { return false; }
    if dry { return true; }
    MigrationState(b, i, x.value);
    if x.value != CheckingRstp {
      var _ := PpmsmRun(b, i, false);
    }
    return false;
  }

  // ---- Bridge Detection ----

  /** `BDSM_run`. */
  method BdsmRun(b: Bridge, i: nat, dry: bool) returns (changed: bool)
    requires b.Valid() && i < |b.ports|
    modifies b`ports
    ensures dry ==> b.ports == old(b.ports) && (changed <==> PM.BdsmTarget(old(b.ports[i]), b.trees[0].ptps[i]).Some?)
    ensures !dry ==> !changed && b.ports == old(b.ports)[i := PM.BdsmRun(old(b.ports[i]), b.trees[0].ptps[i])]
  {
    var prt, cist := b.ports[i], b.trees[0].ptps[i];
    if prt.bdsm == Edge {
      if ((prt.portEnabled.Off? || prt.autoEdge.Off?) && prt.adminEdge.Off?) || prt.operEdge.Off? {
        if dry { return true; }
        b.ports := b.ports[i := prt.(bdsm := NotEdge, operEdge := Off)];
      }
      return false;
    }
    if (prt.portEnabled.Off? && prt.adminEdge.On?)
       || (prt.edgeDelayWhile == 0 && prt.autoEdge.On? && prt.sendRSTP.On? && cist.proposing.On?) {
      if dry { return true; }
      b.ports := b.ports[i := prt.(bdsm := Edge, operEdge := On)];
    }
    return false;
  }

  // ---- Port State Transition ----

  /** The `PSTSM_to_X` routines up to their call of `PSTSM_run`. */
  method StateTransitionState(b: Bridge, t: nat, i: nat, x: PstsmState, ghost was: Snapshot, ghost c: PI.Column)
    requires Holds(b, was, i, c) && t < |c.ptps|
    modifies b`trees, b`out
    ensures Holds(b, was, i, PI.Put(c, t, PM.PstsmEnter(c.ptps[t], x, c.prt.deleted)))
    ensures b.out == old(b.out) + PM.PstsmSent(c.ptps[t], x, c.prt.deleted, i)
  {
    ReadColumn(b, was, i, c);
    var p := b.trees[t].ptps[i].(pstsm := x);
    var state := if x == PsDiscarding then BrBlocking else if x == PsLearning then BrLearning else BrForwarding;
    if p.brState != state && b.ports[i].deleted.Off? {
      b.out := b.out + [SetState(i, p.mstid, state)];
      p := p.(brState := state);
    }
    match x {
      case PsDiscarding => p := p.(learning := Off, forwarding := Off);
      case PsLearning => p := p.(learning := On);
      case PsForwarding => p := p.(forwarding := On);
    }
    PutEntry(b, t, i, p, was, c);
  }

  /** `PSTSM_run`. */
  method PstsmRun(b: Bridge, t: nat, i: nat, dry: bool, ghost was: Snapshot, ghost c: PI.Column) returns (changed: bool)
    requires Holds(b, was, i, c) && t < |c.ptps|
    modifies b`trees, b`out
    ensures dry ==> b.trees == old(b.trees) && b.out == old(b.out) && (changed <==> PM.PstsmTarget(c.ptps[t]).Some?)
    ensures !dry ==> !changed
    ensures !dry ==> var r := PM.PstsmRun(c.ptps[t], c.prt.deleted, i);
                     Holds(b, was, i, PI.Put(c, t, r.0)) && b.out == old(b.out) + r.1
    decreases PM.PstsmWork(c.ptps[t])
  {
    ReadColumn(b, was, i, c);
    var p, x: Option<PstsmState> := b.trees[t].ptps[i], None;
    match p.pstsm {
      case PsDiscarding => if p.learn.On? { x := Some(PsLearning); }
      case PsLearning =>
        if p.learn.Off? { x := Some(PsDiscarding); } else if p.forward.On? { x := Some(PsForwarding); }
      case PsForwarding => if p.forward.Off? { x := Some(PsDiscarding); }
    }
    if x.None? {
      assert PI.Put(c, t, p) == c;
      return false;
    }
    if dry { return true; }
    StateTransitionState(b, t, i, x.value, was, c);
    ghost var q := PM.PstsmEnter(p, x.value, c.prt.deleted);
    if x.value != PsForwarding {
      var _ := PstsmRun(b, t, i, false, was, PI.Put(c, t, q));
      ghost var r := PM.PstsmRun(q, c.prt.deleted, i);
      assert PI.Put(PI.Put(c, t, q), t, r.0) == PI.Put(c, t, r.0);
    }
    return false;
  }

  // ---- Port Transmit ----

  /** The message of `txMstp`: the fields of the CIST, and one MSTI message for each further tree. */
  method BuildRstp(b: Bridge, i: nat, ghost was: Snapshot, ghost c: PI.Column) returns (msg: Bpdu)
    requires Holds(b, was, i, c) && 0 < |c.ptps| <= MAX_STANDARD_MSTIS + 1
    ensures msg == TX.RstpMessage(c, b.cfg)
  {
    ReadColumn(b, was, i, c);
    var p := b.trees[0].ptps[i];
    var v, t := p.designatedPriority, p.designatedTimes;
    msg := Bpdu(ProtoRSTP, TypeRst, TX.TreeFlags(p, false), v.rootId, v.extCost, v.rrootId, v.desPort,
                WireTime(t.messageAge, 0), WireTime(t.maxAge, 0), WireTime(p.portTimes.hello, 0),
                WireTime(t.forwardDelay, 0), [], 0, NO_ID, 0, NoMstis());
    if b.cfg.version != ProtoMSTP { return; }
    msg := msg.(version := ProtoMSTP, configId := b.cfg.configId);
    msg := msg.(intCost := v.intCost, bridgeId := v.desBridge, hops := t.hops);
    var table: seq<MstiMsg> := NoMstis();
    for u := 1 to |b.trees|
      invariant |table| == MAX_STANDARD_MSTIS
      invariant forall j :: 0 <= j < MAX_STANDARD_MSTIS ==>
                table[j] == if j + 1 < u then TX.MstiMessage(c.ptps[j + 1]) else NO_MSTI
    {
      table := table[u - 1 := TX.MstiMessage(b.trees[u].ptps[i])];
    }
    assert table == TX.MstiTableOf(c.ptps);
    msg := msg.(mstis := table);
  }

  method ToPeriodic(b: Bridge, i: nat, ghost was: Snapshot, ghost c: PI.Column)
    requires Holds(b, was, i, c) && |c.ptps| > 0
    modifies b`ports
    ensures Holds(b, was, i, c.(prt := TX.Enter(c, TransmitPeriodic)))
  {
    ReadColumn(b, was, i, c);
    var prt, p := b.ports[i].(ptsm := TransmitPeriodic), b.trees[0].ptps[i];
    if p.role == RoleDesignated || (p.role == RoleRoot && p.tcWhile != 0) { prt := prt.(newInfo := On); }
    var msti := false;
    for u := 1 to |b.trees|
      invariant msti <==> exists j :: 1 <= j < u && TX.Speaks(c.ptps[j])
    {
      var q := b.trees[u].ptps[i];
      if q.role == RoleDesignated || (q.role == RoleRoot && q.tcWhile != 0) {
        assert TX.Speaks(c.ptps[u]);
        msti := true;
      }
    }
    if msti { prt := prt.(newInfoMsti := On); }
    PutPort(b, i, prt, was, c);
  }

  /** The entry actions of the transmit states. */
  method TransmitState(b: Bridge, i: nat, x: PtsmState, ghost was: Snapshot, ghost c: PI.Column)
    requires Holds(b, was, i, c) && 0 < |c.ptps| <= MAX_STANDARD_MSTIS + 1
    modifies b`ports, b`out
    ensures Holds(b, was, i, c.(prt := TX.Enter(c, x))) && b.out == old(b.out) + TX.Sent(c, x, b.cfg, i)
  {
    ReadColumn(b, was, i, c);
    var prt, cist := b.ports[i].(ptsm := x), b.trees[0].ptps[i];
    var silent := prt.deleted.On? || cist.role == RoleDisabled || prt.dontTxmtBpdu.On?;
    match x {
      case TransmitInit => prt := prt.(newInfo := On, newInfoMsti := On, txCount := 0);
      case TransmitConfig =>
        if !silent { b.out := b.out + [TxConfig(i, TX.ConfigMessage(PI.Column(b.ports[i], [cist])))]; }
        prt := prt.(newInfo := Off, txCount := prt.txCount + 1, tcAck := Off);
      case TransmitTcn =>
        if !silent { b.out := b.out + [TxTcn(i)]; }
        prt := prt.(newInfo := Off, txCount := prt.txCount + 1);
      case TransmitRstp =>
        if !silent {
          var msg := BuildRstp(b, i, was, c);
          b.out := b.out + [if b.cfg.version == ProtoMSTP then TxMst(i, msg, |b.trees| - 1) else TxRst(i, msg)];
        }
        prt := prt.(newInfo := Off, newInfoMsti := Off, txCount := prt.txCount + 1, tcAck := Off);
      case TransmitPeriodic =>
        ToPeriodic(b, i, was, c);
        return;
      case TransmitIdle => prt := prt.(helloWhen := cist.portTimes.hello);
    }
    PutPort(b, i, prt, was, c);
  }

  /** The switch of `PTSM_run` for an enabled port, with its loop over the further trees. */
  method NextTransmit(b: Bridge, i: nat, ghost was: Snapshot, ghost c: PI.Column) returns (x: Option<PtsmState>)
    requires Holds(b, was, i, c) && |c.ptps| > 0
    ensures x == TX.Target(c, b.cfg)
  {
    ReadColumn(b, was, i, c);
    var prt, cist := b.ports[i], b.trees[0].ptps[i];
    if prt.ptsm != TransmitIdle { return Some(TransmitIdle); }
    var master := false;
    for u := 0 to |b.trees|
      invariant forall j :: 0 <= j < u ==> c.ptps[j].selected.On? && c.ptps[j].updtInfo.Off?
      invariant master <==> exists j :: 1 <= j < u && c.ptps[j].role == RoleMaster
    {
      var q := b.trees[u].ptps[i];
      if q.selected.Off? || q.updtInfo.On? {
        assert c.ptps[u].selected.Off? || c.ptps[u].updtInfo.On?;
        return None;
      }
      if u > 0 && q.role == RoleMaster {
        assert c.ptps[u].role == RoleMaster;
        master := true;
      }
    }
    if prt.helloWhen == 0 { return Some(TransmitPeriodic); }
    if prt.txCount >= b.cfg.txHoldCount || prt.bpduFilter.On? { return None; }
    if prt.sendRSTP.On? {
      var assured := prt.networkPort.On? && prt.pointToPoint.On? && prt.sendRSTP.On?;
      return if prt.newInfo.On? || (prt.newInfoMsti.On? && !master) || assured then Some(TransmitRstp) else None;
    }
    if prt.newInfo.On? && cist.role == RoleDesignated { return Some(TransmitConfig); }
    return if prt.newInfo.On? && cist.role == RoleRoot then Some(TransmitTcn) else None;
  }

  /** The recursion of an enabled port. */
  method EnabledRun(b: Bridge, i: nat, ghost was: Snapshot, ghost c: PI.Column)
    requires Holds(b, was, i, c) && 0 < |c.ptps| <= MAX_STANDARD_MSTIS + 1 && c.ptps[0].portTimes.hello > 0
    modifies b`ports, b`out
    ensures var r := TX.EnabledRest(c, b.cfg, i); Holds(b, was, i, c.(prt := r.0)) && b.out == old(b.out) + r.1
    decreases TX.Measure(c, b.cfg)
  {
    var x := NextTransmit(b, i, was, c);
    if x.None? {
      assert c.(prt := c.prt) == c;
      return;
    }
    TX.StepDecreases(c, b.cfg);
    ghost var next := c.(prt := TX.Enter(c, x.value));
    TransmitState(b, i, x.value, was, c);
    EnabledRun(b, i, was, next);
    ghost var r := TX.EnabledRest(next, b.cfg, i);
    assert next.(prt := r.0) == c.(prt := r.0);
    ghost var first := TX.Sent(c, x.value, b.cfg, i);
    assert b.out == old(b.out) + first + r.1 == old(b.out) + (first + r.1);
  }

  /** `PTSM_run`: a disabled port is initialised, with a test of its own in a dry run. */
  method PtsmRun(b: Bridge, i: nat, dry: bool, ghost was: Snapshot, ghost c: PI.Column) returns (changed: bool)
    requires Holds(b, was, i, c) && 0 < |c.ptps| <= MAX_STANDARD_MSTIS + 1 && c.ptps[0].portTimes.hello > 0
    modifies b`ports, b`out
    ensures dry ==> b.ports == old(b.ports) && b.out == old(b.out) && (changed <==> TX.Dry(c, b.cfg))
    ensures !dry ==> !changed
    ensures !dry ==> var r := TX.Rest(c, b.cfg, i); Holds(b, was, i, c.(prt := r.0)) && b.out == old(b.out) + r.1
  {
    ReadColumn(b, was, i, c);
    var prt := b.ports[i];
    if prt.portEnabled.Off? {
      if dry { return prt.ptsm != TransmitInit || prt.newInfo.Off? || prt.newInfoMsti.Off? || prt.txCount != 0; }
      TransmitState(b, i, TransmitInit, was, c);
      return false;
    }
    if dry {
      var x := NextTransmit(b, i, was, c);
      return x.Some?;
    }
    EnabledRun(b, i, was, c);
    return false;
  }
}
