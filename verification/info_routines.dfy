/** The routines of the Port Information machine (section 13.32), which update the entries of a port in place:
    `rcvInfo`, `recordAgreement` and the like, the `PISM_to_X` routines, and `PISM_run`, for any tree of the bridge. */
module InfoRoutines {
  import opened Types
  import opened Vectors
  import opened BridgeObject
  import PI = PortInfo

  // ---- Recording parts of the message ----

  method RecordAgreement(b: Bridge, k: nat, i: nat, ghost was: Snapshot, ghost c: PI.Column)
    requires Holds(b, was, i, c) && k < |c.ptps|
    modifies b`trees
    ensures Holds(b, was, i, PI.RecordAgreement(c, k, b.cfg))
  {
    ReadColumn(b, was, i, c);
    if b.trees[k].ptps[i].mstid == 0 {
      RecordCistAgreement(b, k, i, was, c);
      return;
    }
    var p, prt, cist := b.trees[k].ptps[i], b.ports[i], b.trees[0].ptps[i].portPriority;
    var msg := prt.bpdu;
    if prt.pointToPoint.On? && msg.rootId == cist.rootId && msg.extCost == cist.extCost && msg.rrootId == cist.rrootId
       && msg.mstis[p.rcvdMsti].flags.agreement {
      p := p.(agreed := On, proposing := Off);
    } else {
      p := p.(agreed := Off);
    }
    PutEntry(b, k, i, p, was, c);
    assert PI.Put(c, k, p).ptps == PI.RecordAgreement(c, k, b.cfg).ptps;
  }

  method RecordCistAgreement(b: Bridge, k: nat, i: nat, ghost was: Snapshot, ghost c: PI.Column)
    requires Holds(b, was, i, c) && k < |c.ptps| && c.ptps[k].mstid == 0
    modifies b`trees
    ensures Holds(b, was, i, PI.RecordAgreement(c, k, b.cfg))
  {
    ReadColumn(b, was, i, c);
    var p, prt := b.trees[k].ptps[i], b.ports[i];
    if RstpVersion(b.cfg) && prt.pointToPoint.On? && prt.bpdu.flags.agreement {
      p := p.(agreed := On, proposing := Off);
    } else {
      p := p.(agreed := Off);
    }
    PutEntry(b, k, i, p, was, c);
    ghost var d := PI.Put(c, k, p);
    if prt.rcvdInternal.Off? {
      var agreed, proposing := p.agreed, p.proposing;
      ghost var f := (q: Ptp) => q.(agreed := agreed, proposing := proposing);
      ForFurtherTrees(b, k, i, (q: Ptp) => q.(agreed := agreed, proposing := proposing), was, d);
      assert Spread(d, k, |d.ptps|, f).ptps == PI.RecordAgreement(c, k, b.cfg).ptps;
    } else {
      assert d.ptps == PI.RecordAgreement(c, k, b.cfg).ptps;
    }
  }

  method RecordDispute(b: Bridge, k: nat, i: nat, ghost was: Snapshot, ghost c: PI.Column)
    requires Holds(b, was, i, c) && k < |c.ptps|
    modifies b`trees
    ensures Holds(b, was, i, PI.RecordDispute(c, k))
  {
    ReadColumn(b, was, i, c);
    var p, prt := b.trees[k].ptps[i], b.ports[i];
    if p.mstid == 0 {
      if prt.bpdu.flags.learning {
        PutEntry(b, k, i, p.(disputed := On, agreed := Off), was, c);
        ghost var d := PI.Put(c, k, p.(disputed := On, agreed := Off));
        if prt.rcvdInternal.Off? {
          ghost var f := (q: Ptp) => q.(disputed := On, agreed := Off);
          ForFurtherTrees(b, k, i, (q: Ptp) => q.(disputed := On, agreed := Off), was, d);
          assert Spread(d, k, |d.ptps|, f).ptps == PI.RecordDispute(c, k).ptps;
        } else {
          assert d.ptps == PI.RecordDispute(c, k).ptps;
        }
      }
      return;
    }
    if prt.bpdu.mstis[p.rcvdMsti].flags.learning {
      PutEntry(b, k, i, p.(disputed := On, agreed := Off), was, c);
      assert PI.Put(c, k, p.(disputed := On, agreed := Off)).ptps == PI.RecordDispute(c, k).ptps;
    }
  }

  method RecordMastered(b: Bridge, k: nat, i: nat, ghost was: Snapshot, ghost c: PI.Column)
    requires Holds(b, was, i, c) && k < |c.ptps|
    modifies b`trees
    ensures Holds(b, was, i, PI.RecordMastered(c, k))
  {
    ReadColumn(b, was, i, c);
    var p, prt := b.trees[k].ptps[i], b.ports[i];
    if p.mstid == 0 {
      if prt.rcvdInternal.Off? {
        ghost var f := (q: Ptp) => q.(mastered := Off);
        ForFurtherTrees(b, k, i, (q: Ptp) => q.(mastered := Off), was, c);
        assert Spread(c, k, |c.ptps|, f).ptps == PI.RecordMastered(c, k).ptps;
      } else {
        assert c.ptps == PI.RecordMastered(c, k).ptps;
      }
      return;
    }
    var mastered := FlagOf(prt.pointToPoint.On? && prt.bpdu.mstis[p.rcvdMsti].flags.tcAck);
    PutEntry(b, k, i, p.(mastered := mastered), was, c);
    assert PI.Put(c, k, p.(mastered := mastered)).ptps == PI.RecordMastered(c, k).ptps;
  }

  method RecordProposal(b: Bridge, k: nat, i: nat, ghost was: Snapshot, ghost c: PI.Column)
    requires Holds(b, was, i, c) && k < |c.ptps|
    modifies b`trees
    ensures Holds(b, was, i, PI.RecordProposal(c, k))
  {
    ReadColumn(b, was, i, c);
    var p, prt := b.trees[k].ptps[i], b.ports[i];
    if p.mstid == 0 {
      if prt.bpdu.flags.proposal { p := p.(proposed := On); }
      PutEntry(b, k, i, p, was, c);
      ghost var d := PI.Put(c, k, p);
      if prt.rcvdInternal.Off? {
        var proposed := p.proposed;
        ghost var f := (q: Ptp) => q.(proposed := proposed);
        ForFurtherTrees(b, k, i, (q: Ptp) => q.(proposed := proposed), was, d);
        assert Spread(d, k, |d.ptps|, f).ptps == PI.RecordProposal(c, k).ptps;
      } else {
        assert d.ptps == PI.RecordProposal(c, k).ptps;
      }
      return;
    }
    if prt.bpdu.mstis[p.rcvdMsti].flags.proposal { p := p.(proposed := On); }
    PutEntry(b, k, i, p, was, c);
    assert PI.Put(c, k, p).ptps == PI.RecordProposal(c, k).ptps;
  }

  method SetTcFlags(b: Bridge, k: nat, i: nat, ghost was: Snapshot, ghost c: PI.Column)
    requires Holds(b, was, i, c) && k < |c.ptps|
    modifies b`ports, b`trees
    ensures Holds(b, was, i, PI.SetTcFlags(c, k))
  {
    ReadColumn(b, was, i, c);
    var p, prt := b.trees[k].ptps[i], b.ports[i];
    if p.mstid == 0 {
      var flags := prt.bpdu.flags;
      if flags.tcAck { prt := prt.(rcvdTcAck := On); }
      PutPort(b, i, prt, was, c);
      ghost var c1 := c.(prt := prt);
      if flags.tc {
        PutEntry(b, k, i, p.(rcvdTc := On), was, c1);
        ghost var d := PI.Put(c1, k, p.(rcvdTc := On));
        if prt.rcvdInternal.Off? {
          ghost var f := (q: Ptp) => q.(proposed := On);
          ForFurtherTrees(b, k, i, (q: Ptp) => q.(proposed := On), was, d);
          assert Spread(d, k, |d.ptps|, f).ptps == PI.SetTcFlags(c, k).ptps;
        } else {
          assert d.ptps == PI.SetTcFlags(c, k).ptps;
        }
      }
      return;
    }
    if prt.bpdu.mstis[p.rcvdMsti].flags.tc {
      PutEntry(b, k, i, p.(rcvdTc := On), was, c);
      assert PI.Put(c, k, p.(rcvdTc := On)).ptps == PI.SetTcFlags(c, k).ptps;
    }
  }

  /** `updtRcvdInfoWhile`. */
  method UpdtRcvdInfoWhile(b: Bridge, k: nat, i: nat, ghost was: Snapshot, ghost c: PI.Column)
    requires Holds(b, was, i, c) && k < |c.ptps|
    modifies b`trees
    ensures Holds(b, was, i, PI.Put(c, k, c.ptps[k].(rcvdInfoWhile := PI.InfoLifetime(c, k))))
  {
    ReadColumn(b, was, i, c);
    var p, cist, prt := b.trees[k].ptps[i], b.trees[0].ptps[i].portTimes, b.ports[i];
    if (prt.rcvdInternal.Off? && cist.messageAge + 1 <= cist.maxAge) || (prt.rcvdInternal.On? && p.portTimes.hops > 1) {
      PutEntry(b, k, i, p.(rcvdInfoWhile := 3 * cist.hello), was, c);
    } else {
      PutEntry(b, k, i, p.(rcvdInfoWhile := 0), was, c);
    }
  }

  // ---- The message ----

  /** Whether the message conveys a Designated role. */
  method MessageRole(msg: Bpdu, p: Ptp) returns (designated: Option<bool>)
    ensures designated == PI.ConveysDesignated(msg, msg.mstis[p.rcvdMsti], p.mstid == 0)
  {
    if p.mstid == 0 && msg.version == ProtoSTP { return Some(true); }
    if p.mstid != 0 && msg.version != ProtoMSTP { return None; }
    var role := if p.mstid == 0 then msg.flags.role else msg.mstis[p.rcvdMsti].flags.role;
    match role
    case EncAlternateBackup => return Some(false);
    case EncRoot => return Some(false);
    case EncDesignated => return Some(true);
    case EncMaster => return if p.mstid == 0 && msg.version == ProtoRSTP then Some(true) else None;
  }

  /** Fills the message vector and times, field by field. */
  method DecodeMessage(p: Ptp, msg: Bpdu, cfg: Config) returns (q: Ptp)
    ensures q == PI.Decoded(p, msg, cfg)
  {
    var v, t := p.msgPriority, p.msgTimes;
    if p.mstid == 0 {
      v := v.(rrootId := msg.rrootId, desPort := msg.portId, rootId := msg.rootId, extCost := msg.extCost);
      t := t.(forwardDelay := PI.NearestSecond(msg.forwardDelay), maxAge := PI.NearestSecond(msg.maxAge));
      t := t.(messageAge := PI.NearestSecond(msg.messageAge), hello := PI.NearestSecond(msg.helloTime));
      if msg.version != ProtoMSTP {
        v := v.(intCost := 0, desBridge := msg.rrootId);
        t := t.(hops := cfg.maxHops);
      } else {
        v := v.(intCost := msg.intCost, desBridge := msg.bridgeId);
        t := t.(hops := msg.hops);
      }
    } else {
      var m := msg.mstis[p.rcvdMsti];
      v := v.(rrootId := m.rrootId, intCost := m.intCost, desBridge := msg.bridgeId);
      v := v.(desBridge := v.desBridge.(priority := PI.SetPriority(m.bridgePriority, p.mstid)));
      v := v.(desPort := PI.SetPriority(m.portPriority, msg.portId));
      t := t.(hops := m.hops);
    }
    return p.(msgPriority := v, msgTimes := t);
  }

  /** The comparison of the decoded message with the port's information. */
  method ClassifyMessage(p: Ptp, designated: bool) returns (info: Info)
    ensures info == PI.Classify(p, designated, p.mstid == 0)
  {
    var cist := p.mstid == 0;
    var better := !BetterOrSame(p.portPriority, p.msgPriority, 0, 0, cist);
    if designated {
      if better || (p.msgPriority.desBridge.mac == p.portPriority.desBridge.mac
                    && p.msgPriority.desPort % 0x1000 == p.portPriority.desPort % 0x1000) {
        return SuperiorDesignated;
      }
      var same := SamePriorityAndTimers(p.msgPriority, p.portPriority, p.msgTimes, p.portTimes, cist);
      if !same && BetterOrSame(p.msgPriority, p.portPriority, 0, 0, cist) { return SuperiorDesignated; }
      if same && p.infoIs == IoReceived { return RepeatedDesignated; }
      return InferiorDesignated;
    }
    return if better then OtherInfo else InferiorRootAlternate;
  }

  /** `rcvInfo`, whose result the caller stores. */
  method RcvInfo(b: Bridge, k: nat, i: nat, ghost was: Snapshot, ghost c: PI.Column)
    requires Holds(b, was, i, c) && k < |c.ptps|
    modifies b`ports, b`trees
    ensures Holds(b, was, i, PI.RcvInfo(c, k, b.cfg))
  {
    ReadColumn(b, was, i, c);
    var p, msg := b.trees[k].ptps[i], b.ports[i].bpdu;
    if msg.bpduType == TypeTcn {
      PutPort(b, i, b.ports[i].(rcvdTcn := On), was, c);
      ghost var d := c.(prt := c.prt.(rcvdTcn := On));
      ghost var f := (q: Ptp) => q.(rcvdTc := On);
      ForFurtherTrees(b, -1, i, (q: Ptp) => q.(rcvdTc := On), was, d);
      ghost var e := Spread(d, -1, |d.ptps|, f);
      ReadColumn(b, was, i, e);
      PutEntry(b, k, i, b.trees[k].ptps[i].(rcvdInfo := OtherInfo), was, e);
      assert PI.Put(e, k, e.ptps[k].(rcvdInfo := OtherInfo)).ptps == PI.RcvInfo(c, k, b.cfg).ptps;
      return;
    }
    var designated := MessageRole(msg, p);
    if designated.None? {
      PutEntry(b, k, i, p.(rcvdInfo := OtherInfo), was, c);
      return;
    }
    var q := DecodeMessage(p, msg, b.cfg);
    var info := ClassifyMessage(q, designated.value);
    PutEntry(b, k, i, q.(rcvdInfo := info), was, c);
  }

  // ---- The states ----

  method ToDisabled(b: Bridge, k: nat, i: nat, ghost was: Snapshot, ghost c: PI.Column)
    requires Holds(b, was, i, c) && k < |c.ptps|
    modifies b`trees
    ensures Holds(b, was, i, PI.Enter(c, k, PiDisabled, b.cfg))
  {
    ReadColumn(b, was, i, c);
    var p := b.trees[k].ptps[i].(pism := PiDisabled);
    p := p.(rcvdMsg := Off, proposing := Off, proposed := Off, agree := Off, agreed := Off);
    p := p.(rcvdInfoWhile := 0, infoIs := IoDisabled, reselect := On, selected := Off);
    PutEntry(b, k, i, p, was, c);
    assert PI.Put(c, k, p).ptps == PI.Enter(c, k, PiDisabled, b.cfg).ptps;
  }

  method ToAged(b: Bridge, k: nat, i: nat, ghost was: Snapshot, ghost c: PI.Column)
    requires Holds(b, was, i, c) && k < |c.ptps|
    modifies b`trees
    ensures Holds(b, was, i, PI.Enter(c, k, PiAged, b.cfg))
  {
    ReadColumn(b, was, i, c);
    var p := b.trees[k].ptps[i].(pism := PiAged, infoIs := IoAged, reselect := On, selected := Off);
    PutEntry(b, k, i, p, was, c);
    assert PI.Put(c, k, p).ptps == PI.Enter(c, k, PiAged, b.cfg).ptps;
  }

  method ToUpdate(b: Bridge, k: nat, i: nat, ghost was: Snapshot, ghost c: PI.Column)
    requires Holds(b, was, i, c) && k < |c.ptps|
    modifies b`ports, b`trees
    ensures Holds(b, was, i, PI.Enter(c, k, PiUpdate, b.cfg))
  {
    ReadColumn(b, was, i, c);
    var p := b.trees[k].ptps[i].(pism := PiUpdate, proposing := Off, proposed := Off);
    if !PI.BetterOrSameInfo(p, IoMine) { p := p.(agreed := Off); }
    if p.agreed.Off? { p := p.(synced := Off); }
    p := p.(portPriority := p.designatedPriority, portTimes := p.designatedTimes, updtInfo := Off, infoIs := IoMine);
    PutEntry(b, k, i, p, was, c);
    ghost var d := PI.Put(c, k, p);
    var prt := b.ports[i];
    PutPort(b, i, if p.mstid == 0 then prt.(newInfo := On) else prt.(newInfoMsti := On), was, d);
    assert d.ptps == PI.Enter(c, k, PiUpdate, b.cfg).ptps;
  }

  /** The state variable of the machine is set first. */
  method Mark(b: Bridge, k: nat, i: nat, x: PismState, ghost was: Snapshot, ghost c: PI.Column)
    requires Holds(b, was, i, c) && k < |c.ptps|
    modifies b`trees
    ensures Holds(b, was, i, PI.Mark(c, k, x))
  {
    ReadColumn(b, was, i, c);
    PutEntry(b, k, i, b.trees[k].ptps[i].(pism := x), was, c);
  }

  method ClearMsg(b: Bridge, k: nat, i: nat, ghost was: Snapshot, ghost c: PI.Column)
    requires Holds(b, was, i, c) && k < |c.ptps|
    modifies b`trees
    ensures Holds(b, was, i, PI.ClearMsg(c, k))
  {
    ReadColumn(b, was, i, c);
    PutEntry(b, k, i, b.trees[k].ptps[i].(rcvdMsg := Off), was, c);
  }

  method NoteSuperior(b: Bridge, k: nat, i: nat, ghost was: Snapshot, ghost c: PI.Column)
    requires Holds(b, was, i, c) && k < |c.ptps|
    modifies b`ports, b`trees
    ensures Holds(b, was, i, PI.NoteSuperior(c, k, b.cfg))
  {
    ReadColumn(b, was, i, c);
    var prt := b.ports[i].(infoInternal := b.ports[i].rcvdInternal);
    var p := b.trees[k].ptps[i].(agreed := Off, proposing := Off);
    PutPort(b, i, prt, was, c);
    PutEntry(b, k, i, p, was, c.(prt := prt));
    ghost var c1 := PI.Column(prt, c.ptps[k := p]);
    RecordProposal(b, k, i, was, c1);
    SetTcFlags(b, k, i, was, PI.RecordProposal(c1, k));
    ghost var c2 := PI.SetTcFlags(PI.RecordProposal(c1, k), k);
    ReadColumn(b, was, i, c2);
    var p2 := b.trees[k].ptps[i];
    if !PI.BetterOrSameInfo(p2, IoReceived) { p2 := p2.(agree := Off); }
    PutEntry(b, k, i, p2, was, c2);
    RecordAgreement(b, k, i, was, PI.Put(c2, k, p2));
  }

  method RecordSuperior(b: Bridge, k: nat, i: nat, ghost was: Snapshot, ghost c: PI.Column)
    requires Holds(b, was, i, c) && k < |c.ptps|
    modifies b`trees
    ensures Holds(b, was, i, PI.RecordSuperior(c, k))
  {
    ReadColumn(b, was, i, c);
    var p := b.trees[k].ptps[i];
    if p.agreed.Off? { p := p.(synced := Off); }
    p := p.(portPriority := p.msgPriority, portTimes := p.msgTimes.(hello := p.portTimes.hello));
    PutEntry(b, k, i, p, was, c);
    ghost var c1 := PI.Put(c, k, p);
    UpdtRcvdInfoWhile(b, k, i, was, c1);
    ghost var c2 := PI.Put(c1, k, p.(rcvdInfoWhile := PI.InfoLifetime(c1, k)));
    ReadColumn(b, was, i, c2);
    var q := b.trees[k].ptps[i].(infoIs := IoReceived, reselect := On, selected := Off, rcvdMsg := Off);
    PutEntry(b, k, i, q, was, c2);
    assert PI.Put(c2, k, q).ptps == PI.RecordSuperior(c, k).ptps;
  }

  method ToSuperior(b: Bridge, k: nat, i: nat, ghost was: Snapshot, ghost c: PI.Column)
    requires Holds(b, was, i, c) && k < |c.ptps|
    modifies b`ports, b`trees
    ensures Holds(b, was, i, PI.Enter(c, k, PiSuperior, b.cfg))
  {
    Mark(b, k, i, PiSuperior, was, c);
    ghost var c1 := PI.Mark(c, k, PiSuperior);
    NoteSuperior(b, k, i, was, c1);
    RecordSuperior(b, k, i, was, PI.NoteSuperior(c1, k, b.cfg));
  }

  method ToRepeated(b: Bridge, k: nat, i: nat, ghost was: Snapshot, ghost c: PI.Column)
    requires Holds(b, was, i, c) && k < |c.ptps|
    modifies b`ports, b`trees
    ensures Holds(b, was, i, PI.Enter(c, k, PiRepeated, b.cfg))
  {
    Mark(b, k, i, PiRepeated, was, c);
    ghost var c0 := PI.Mark(c, k, PiRepeated);
    var prt := b.ports[i].(infoInternal := b.ports[i].rcvdInternal);
    PutPort(b, i, prt, was, c0);
    ghost var c1 := c0.(prt := prt);
    RecordProposal(b, k, i, was, c1);
    ghost var c2 := PI.RecordProposal(c1, k);
    SetTcFlags(b, k, i, was, c2);
    ghost var c3 := PI.SetTcFlags(c2, k);
    RecordAgreement(b, k, i, was, c3);
    ghost var c4 := PI.RecordAgreement(c3, k, b.cfg);
    UpdtRcvdInfoWhile(b, k, i, was, c4);
    ghost var c5 := PI.Put(c4, k, c4.ptps[k].(rcvdInfoWhile := PI.InfoLifetime(c4, k)));
    ClearMsg(b, k, i, was, c5);
    assert PI.ClearMsg(c5, k).ptps == PI.Enter(c, k, PiRepeated, b.cfg).ptps;
  }

  /** The routines `PISM_to_X` up to their call of `PISM_run`. */
  method EnterState(b: Bridge, k: nat, i: nat, x: PismState, ghost was: Snapshot, ghost c: PI.Column)
    requires Holds(b, was, i, c) && k < |c.ptps|
    modifies b`ports, b`trees
    ensures Holds(b, was, i, PI.Enter(c, k, x, b.cfg))
  {
    ghost var c1 := PI.Mark(c, k, x);
    match x
    case PiDisabled => ToDisabled(b, k, i, was, c);
    case PiAged => ToAged(b, k, i, was, c);
    case PiUpdate => ToUpdate(b, k, i, was, c);
    case PiSuperior => ToSuperior(b, k, i, was, c);
    case PiRepeated => ToRepeated(b, k, i, was, c);
    case PiInferior =>
      Mark(b, k, i, x, was, c);
      RecordDispute(b, k, i, was, c1);
      ClearMsg(b, k, i, was, PI.RecordDispute(c1, k));
    case PiNotDesignated =>
      Mark(b, k, i, x, was, c);
      RecordAgreement(b, k, i, was, c1);
      SetTcFlags(b, k, i, was, PI.RecordAgreement(c1, k, b.cfg));
      ClearMsg(b, k, i, was, PI.SetTcFlags(PI.RecordAgreement(c1, k, b.cfg), k));
    case PiOther =>
      Mark(b, k, i, x, was, c);
      ClearMsg(b, k, i, was, c1);
    case PiCurrent => Mark(b, k, i, x, was, c);
    case PiReceive =>
      Mark(b, k, i, x, was, c);
      RcvInfo(b, k, i, was, c1);
      RecordMastered(b, k, i, was, PI.RcvInfo(c1, k, b.cfg));
  }

  /** The switch of `PISM_run`. */
  method NextState(b: Bridge, k: nat, i: nat, ghost was: Snapshot, ghost c: PI.Column) returns (x: Option<PismState>)
    requires Holds(b, was, i, c) && k < |c.ptps|
    ensures x == PI.Target(c, k)
  {
    ReadColumn(b, was, i, c);
    var p, prt, cist := b.trees[k].ptps[i], b.ports[i], b.trees[0].ptps[i];
    if prt.portEnabled.Off? && p.infoIs != IoDisabled { return Some(PiDisabled); }
    match p.pism
    case PiDisabled =>
      if prt.portEnabled.On? { return Some(PiAged); }
      return if p.rcvdMsg.On? then Some(PiDisabled) else None;
    case PiAged => return if p.selected.On? && p.updtInfo.On? then Some(PiUpdate) else None;
    case PiUpdate | PiSuperior | PiRepeated | PiInferior | PiNotDesignated | PiOther => return Some(PiCurrent);
    case PiCurrent =>
      var rcvd := if p.mstid == 0 then p.rcvdMsg.On? else cist.rcvdMsg.Off? && p.rcvdMsg.On?;
      var updt := if p.mstid == 0 then p.updtInfo.On? else p.updtInfo.On? || cist.updtInfo.On?;
      if rcvd && !updt { return Some(PiReceive); }
      if p.infoIs == IoReceived && p.rcvdInfoWhile == 0 && p.updtInfo.Off? && !rcvd { return Some(PiAged); }
      return if p.selected.On? && p.updtInfo.On? then Some(PiUpdate) else None;
    case PiReceive =>
      match p.rcvdInfo
      case SuperiorDesignated => return Some(PiSuperior);
      case RepeatedDesignated => return Some(PiRepeated);
      case InferiorDesignated => return Some(PiInferior);
      case InferiorRootAlternate => return Some(PiNotDesignated);
      case OtherInfo => return Some(PiOther);
  }

  /** `PISM_run` on tree `k` of port `i`: a dry run reports whether there is a transition and changes nothing; an actual
      run recurses until the machine is at rest. */
  method PismRun(b: Bridge, k: nat, i: nat, dry: bool, ghost was: Snapshot, ghost c: PI.Column) returns (changed: bool)
    requires Holds(b, was, i, c) && k < |c.ptps|
    modifies b`ports, b`trees
    ensures dry ==> b.ports == old(b.ports) && b.trees == old(b.trees) && (changed <==> PI.Target(c, k).Some?)
    ensures !dry ==> !changed && Holds(b, was, i, PI.Rest(c, k, b.cfg))
    decreases PI.Measure(c, k), 0
  {
    var x := NextState(b, k, i, was, c);
    if x.None? { return false; }
    if dry { return true; }
    PI.StepDecreases(c, k, b.cfg);
    PismTo(b, k, i, x.value, was, c);
    return false;
  }

  method PismTo(b: Bridge, k: nat, i: nat, x: PismState, ghost was: Snapshot, ghost c: PI.Column)
    requires Holds(b, was, i, c) && k < |c.ptps|
    modifies b`ports, b`trees
    ensures Holds(b, was, i, PI.Rest(PI.Enter(c, k, x, b.cfg), k, b.cfg))
    decreases PI.Measure(PI.Enter(c, k, x, b.cfg), k), 1
  {
    EnterState(b, k, i, x, was, c);
    var _ := PismRun(b, k, i, false, was, PI.Enter(c, k, x, b.cfg));
  }
}
