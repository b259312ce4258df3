/** What a Designated Port does with a Designated message: the run of the Port Information machine and the role
    selection that follows it. */
module Hearing {
  import opened Types
  import opened Vectors
  import PI = PortInfo
  import PIT = PortInfoTheorems
  import Roles
  import RoleTheorems

  // ---- The run of the Port Information machine ----

  lemma Unroll(c: PI.Column, k: nat, cfg: Config)
    requires k < |c.ptps| && PI.Target(c, k).Some?
    ensures PI.Rest(c, k, cfg) == PI.Rest(PI.Enter(c, k, PI.Target(c, k).value, cfg), k, cfg)
  {
    PI.StepDecreases(c, k, cfg);
  }

  /** Every run comes to rest. */
  lemma {:induction false} RunStops(c: PI.Column, k: nat, cfg: Config)
    requires k < |c.ptps|
    ensures PI.Target(PI.Rest(c, k, cfg), k).None?
    decreases PI.Measure(c, k)
  {
    var t := PI.Target(c, k);
    if t.Some? {
      PI.StepDecreases(c, k, cfg);
      RunStops(PI.Enter(c, k, t.value, cfg), k, cfg);
    }
  }

  lemma SettleAfterSuperior(c: PI.Column, k: nat, cfg: Config)
    requires k < |c.ptps| && c.prt.portEnabled.On? && c.ptps[k].pism == PiSuperior
    requires c.ptps[k].infoIs == IoReceived && c.ptps[k].rcvdMsg.Off? && c.ptps[k].updtInfo.Off?
             && c.ptps[k].selected.Off?
    ensures var p := PI.Rest(c, k, cfg).ptps[k];
            && p.portTimes == c.ptps[k].portTimes && p.portPriority == c.ptps[k].portPriority
            && p.infoIs == if c.ptps[k].rcvdInfoWhile > 0 then IoReceived else IoAged
  {
    var c1 := PI.Enter(c, k, PiCurrent, cfg);
    PI.StepDecreases(c, k, cfg);
    if c.ptps[k].rcvdInfoWhile == 0 {
      PI.StepDecreases(c1, k, cfg);
      var c2 := PI.Enter(c1, k, PiAged, cfg);
      assert PI.Rest(c2, k, cfg) == c2;
    } else {
      assert PI.Rest(c1, k, cfg) == c1;
    }
  }

  /** The run from SUPERIOR_DESIGNATED on: the message is recorded, and aged at once if it has no lifetime. */
  lemma RunAfterSuperior(c: PI.Column, r: PI.Column, k: nat, cfg: Config)
    requires k < |c.ptps| == |r.ptps| && c.prt.portEnabled.On? && c.ptps[k].updtInfo.Off?
    requires PI.Framed(c, r, k) && PI.Controlled(c, r, k, PiSuperior)
    ensures var p, q := c.ptps[k], PI.Rest(r, k, cfg).ptps[k];
            && q.portPriority == p.msgPriority && q.portTimes == p.msgTimes.(hello := p.portTimes.hello)
            && q.infoIs == if PI.InfoLifetime(r, k) > 0 then IoReceived else IoAged
  {
    SettleAfterSuperior(r, k, cfg);
  }

  /** The run from INFERIOR_DESIGNATED on: a port with its own information keeps it. */
  lemma RunAfterInferior(c: PI.Column, r: PI.Column, k: nat, cfg: Config)
    requires k < |c.ptps| == |r.ptps| && c.prt.portEnabled.On? && c.ptps[k].updtInfo.Off? && c.ptps[k].infoIs == IoMine
    requires PI.Framed(c, r, k) && PI.Controlled(c, r, k, PiInferior)
    ensures var p, q := c.ptps[k], PI.Rest(r, k, cfg).ptps[k];
            q.portPriority == p.portPriority && q.infoIs == IoMine
  {
    var next := PI.Enter(r, k, PiCurrent, cfg);
    PI.EnterControls(r, k, PiCurrent, cfg);
    Unroll(r, k, cfg);
    AtRestInCurrent(next, k, cfg);
  }

  lemma AtRestInCurrent(c: PI.Column, k: nat, cfg: Config)
    requires k < |c.ptps| && c.prt.portEnabled.On? && c.ptps[k].pism == PiCurrent
    requires c.ptps[k].rcvdMsg.Off? && c.ptps[k].updtInfo.Off? && c.ptps[k].infoIs == IoMine
    ensures PI.Rest(c, k, cfg) == c
  {
  }

  /** The CIST entry of the port rests on its own information and has an unread Designated message. */
  predicate HearsDesignated(c: PI.Column) {
    && |c.ptps| > 0 && c.prt.portEnabled.On?
    && var p, b := c.ptps[0], c.prt.bpdu;
       && p.mstid == 0 && p.pism == PiCurrent && p.infoIs == IoMine && p.updtInfo.Off? && p.rcvdMsg.On?
       && b.bpduType != TypeTcn && PI.ConveysDesignated(b, b.mstis[p.rcvdMsti], true) == Some(true)
  }

  /** The message may be kept: it is not too old, or comes from the region and has hops left. */
  predicate Lives(c: PI.Column, cfg: Config)
    requires |c.ptps| > 0
  {
    var t := PI.CistTimes(c.prt.bpdu, cfg.maxHops);
    && c.ptps[0].portTimes.hello > 0
    && if c.prt.rcvdInternal.On? then t.hops > 1 else t.messageAge + 1 <= t.maxAge
  }

  /** Entering RECEIVE decodes the message and classifies it. */
  lemma ReceiveClassifies(c: PI.Column, cfg: Config)
    requires HearsDesignated(c)
    ensures var q := PI.Enter(c, 0, PiReceive, cfg).ptps[0];
            && q.msgPriority == PI.CistVec(c.prt.bpdu) && q.msgTimes == PI.CistTimes(c.prt.bpdu, cfg.maxHops)
            && q.rcvdInfo == PI.Classify(PI.Decoded(c.ptps[0].(pism := PiReceive), c.prt.bpdu, cfg), true, true)
  {
    var c1 := PI.Mark(c, 0, PiReceive);
    var c2 := PI.RcvInfo(c1, 0, cfg);
    PI.RecordMasteredFramed(c2, 0);
    assert PI.Enter(c, 0, PiReceive, cfg) == PI.RecordMastered(c2, 0);
  }

  /** How one run leaves the port: on the message when it is superior and lives, aged when it is superior and does not
      live, and on its own information otherwise. */
  lemma RunOnDesignated(c: PI.Column, cfg: Config)
    requires HearsDesignated(c)
    ensures var v, p, q := PI.CistVec(c.prt.bpdu), c.ptps[0], PI.Rest(c, 0, cfg).ptps[0];
            if StrictlyBetter(v, p.portPriority, true) || PI.SameOrigin(v, p.portPriority)
            then q.portPriority == v && q.infoIs == (if Lives(c, cfg) then IoReceived else IoAged)
                 && q.portTimes == PI.CistTimes(c.prt.bpdu, cfg.maxHops).(hello := p.portTimes.hello)
            else q.portPriority == p.portPriority && q.infoIs == IoMine
  {
    var p := c.ptps[0];
    assert PI.Target(c, 0) == Some(PiReceive);
    PI.EnterControls(c, 0, PiReceive, cfg);
    ReceiveClassifies(c, cfg);
    PIT.Classification(PI.Decoded(p.(pism := PiReceive), c.prt.bpdu, cfg), true, true);
    Unroll(c, 0, cfg);
    FromReceive(c, PI.Enter(c, 0, PiReceive, cfg), cfg);
  }

  lemma FromReceive(c: PI.Column, r: PI.Column, cfg: Config)
    requires HearsDesignated(c) && |r.ptps| == |c.ptps| && PI.Framed(c, r, 0) && PI.Controlled(c, r, 0, PiReceive)
    requires r.ptps[0].msgPriority == PI.CistVec(c.prt.bpdu)
    requires r.ptps[0].msgTimes == PI.CistTimes(c.prt.bpdu, cfg.maxHops)
    requires r.ptps[0].rcvdInfo == SuperiorDesignated || r.ptps[0].rcvdInfo == InferiorDesignated
    ensures var q := PI.Rest(r, 0, cfg).ptps[0];
            if r.ptps[0].rcvdInfo == SuperiorDesignated
            then q.portPriority == PI.CistVec(c.prt.bpdu) && q.infoIs == (if Lives(c, cfg) then IoReceived else IoAged)
                 && q.portTimes == PI.CistTimes(c.prt.bpdu, cfg.maxHops).(hello := c.ptps[0].portTimes.hello)
            else q.portPriority == c.ptps[0].portPriority && q.infoIs == IoMine
  {
    if r.ptps[0].rcvdInfo == SuperiorDesignated {
      FromSuperior(c, r, cfg);
    } else {
      FromInferior(c, r, cfg);
    }
  }

  lemma FromSuperior(c: PI.Column, r: PI.Column, cfg: Config)
    requires HearsDesignated(c) && |r.ptps| == |c.ptps| && PI.Framed(c, r, 0) && PI.Controlled(c, r, 0, PiReceive)
    requires r.ptps[0].msgTimes == PI.CistTimes(c.prt.bpdu, cfg.maxHops) && r.ptps[0].rcvdInfo == SuperiorDesignated
    ensures var q := PI.Rest(r, 0, cfg).ptps[0];
            && q.portPriority == r.ptps[0].msgPriority && q.infoIs == (if Lives(c, cfg) then IoReceived else IoAged)
            && q.portTimes == PI.CistTimes(c.prt.bpdu, cfg.maxHops).(hello := c.ptps[0].portTimes.hello)
  {
    assert PI.Target(r, 0) == Some(PiSuperior);
    Unroll(r, 0, cfg);
    PI.EnterControls(r, 0, PiSuperior, cfg);
    var s := PI.Enter(r, 0, PiSuperior, cfg);
    RunAfterSuperior(r, s, 0, cfg);
    LifetimeOfRecorded(c, r, s, cfg);
  }

  lemma FromInferior(c: PI.Column, r: PI.Column, cfg: Config)
    requires HearsDesignated(c) && |r.ptps| == |c.ptps| && PI.Framed(c, r, 0) && PI.Controlled(c, r, 0, PiReceive)
    requires r.ptps[0].rcvdInfo == InferiorDesignated
    ensures var q := PI.Rest(r, 0, cfg).ptps[0]; q.portPriority == c.ptps[0].portPriority && q.infoIs == IoMine
  {
    assert PI.Target(r, 0) == Some(PiInferior);
    Unroll(r, 0, cfg);
    PI.EnterControls(r, 0, PiInferior, cfg);
    RunAfterInferior(r, PI.Enter(r, 0, PiInferior, cfg), 0, cfg);
  }

  lemma LifetimeOfRecorded(c: PI.Column, r: PI.Column, s: PI.Column, cfg: Config)
    requires |c.ptps| == |r.ptps| == |s.ptps| > 0
    requires PI.Framed(c, r, 0) && PI.Framed(r, s, 0) && PI.Controlled(r, s, 0, PiSuperior)
    requires r.ptps[0].msgTimes == PI.CistTimes(c.prt.bpdu, cfg.maxHops)
    requires r.ptps[0].portTimes.hello == c.ptps[0].portTimes.hello
    ensures PI.InfoLifetime(s, 0) > 0 <==> Lives(c, cfg)
  {
  }

  // ---- The role selection that follows ----

  /** Port `i` of a CIST that is settled as Designated on its own vector, and its column of entries. */
  ghost predicate SettledDesignated(tree: Tree, ports: seq<Port>, i: nat, c: PI.Column) {
    && |tree.ptps| == |ports| && i < |ports| && tree.mstid == 0 && |c.ptps| > 0
    && c.prt == ports[i] && c.ptps[0] == tree.ptps[i] && tree.ptps[i].infoIs == IoMine
    && tree.ptps[i].portPriority
       == Roles.DesignatedVec(Roles.RootOf(tree, ports).vec, tree.bridgeId, tree.ptps[i], ports[i], true)
  }

  /** The role selected for port `i` when its column has become `r`. */
  function RoleAfter(tree: Tree, ports: seq<Port>, i: nat, r: PI.Column): Role
    requires |tree.ptps| == |ports| && i < |ports| && |r.ptps| > 0
  {
    var after := tree.(ptps := tree.ptps[i := r.ptps[0]]);
    Roles.UpdatedTree(after, ports[i := r.prt], after.ptps).ptps[i].selectedRole
  }

  /** A port that does not supply the new Root leaves the root vector as it was. */
  lemma {:induction false} OtherOffersUnchanged(tree: Tree, tree': Tree, ports: seq<Port>, i: nat, n: nat)
    requires n <= |tree.ptps| == |tree'.ptps| == |ports| && i < |ports|
    requires tree' == tree.(ptps := tree.ptps[i := tree'.ptps[i]]) && tree.ptps[i].infoIs == IoMine
    requires tree'.ptps[i].portId == tree.ptps[i].portId
    ensures var c, c' := Roles.SelectRoot(tree, ports, n), Roles.SelectRoot(tree', ports, n);
            && BetterOrSame(c'.vec, c.vec, c'.pid, c.pid, tree.mstid == 0)
            && (c'.index != Some(i) ==> Key(c'.vec, c'.pid, tree.mstid == 0) == Key(c.vec, c.pid, tree.mstid == 0))
  {
    var cist := tree.mstid == 0;
    RoleTheorems.ScanIsMinimum(tree, ports, n);
    RoleTheorems.ScanIsMinimum(tree', ports, n);
    var c, c' := Roles.SelectRoot(tree, ports, n), Roles.SelectRoot(tree', ports, n);
    assert RoleTheorems.IsCandidate(tree', ports, n, c.vec, c.pid) by {
      if c.index.Some? {
        assert RoleTheorems.FromPort(tree', ports, c.index.value, c.vec, c.pid);
      }
    }
    if c'.index != Some(i) {
      assert RoleTheorems.IsCandidate(tree, ports, n, c'.vec, c'.pid) by {
        if c'.index.Some? {
          assert RoleTheorems.FromPort(tree, ports, c'.index.value, c'.vec, c'.pid);
        }
      }
      BetterOrSameAntisymmetric(c.vec, c'.vec, c.pid, c'.pid, cist);
    }
  }

  /** Role selection does not look at what a run of the Port Information machine changes in a port. */
  lemma {:induction false} SameRootForFramedPort(tree: Tree, ports: seq<Port>, i: nat, prt: Port, n: nat)
    requires n <= |tree.ptps| == |ports| && i < |ports| && PI.PortFrame(ports[i], prt)
    ensures Roles.SelectRoot(tree, ports[i := prt], n) == Roles.SelectRoot(tree, ports, n)
  {
    if n > 0 {
      SameRootForFramedPort(tree, ports, i, prt, n - 1);
    }
  }

  /** A port that gave up its own information for a better vector is not Designated. */
  lemma BetterInformationIsNotDesignated(tree: Tree, ports: seq<Port>, i: nat, q: Ptp)
    requires |tree.ptps| == |ports| && i < |ports| && tree.mstid == 0 && tree.ptps[i].infoIs == IoMine
    requires var p := tree.ptps[i];
             && p.portPriority == Roles.DesignatedVec(Roles.RootOf(tree, ports).vec, tree.bridgeId, p, ports[i], true)
             && q.infoIs == IoReceived && q.portId == p.portId && StrictlyBetter(q.portPriority, p.portPriority, true)
    ensures var after := tree.(ptps := tree.ptps[i := q]);
            Roles.UpdatedTree(after, ports, after.ptps).ptps[i].selectedRole != RoleDesignated
  {
    var after := tree.(ptps := tree.ptps[i := q]);
    var clause := RoleTheorems.ExactlyOneClause(after, ports, after.ptps, i);
    assert RoleTheorems.Applies(clause, after, ports, after.ptps, i);
    OtherOffersUnchanged(tree, after, ports, i, |ports|);
    var c, c' := Roles.RootOf(tree, ports), Roles.RootOf(after, ports);
    if c'.index != Some(i) {
      RoleTheorems.ScanIsMinimum(tree, ports, |ports|);
      RoleTheorems.ScanIsMinimum(after, ports, |ports|);
      SameKeySameVec(c.vec, c'.vec, c.pid, c'.pid);
    }
  }

  /** A port on its own or on aged information is Designated. */
  lemma OwnInformationIsDesignated(tree: Tree, ports: seq<Port>, i: nat)
    requires |tree.ptps| == |ports| && i < |ports| && tree.mstid == 0
    requires tree.ptps[i].infoIs == IoMine || tree.ptps[i].infoIs == IoAged
    ensures Roles.UpdatedTree(tree, ports, tree.ptps).ptps[i].selectedRole == RoleDesignated
  {
    var clause := RoleTheorems.ExactlyOneClause(tree, ports, tree.ptps, i);
    assert RoleTheorems.Applies(clause, tree, ports, tree.ptps, i);
  }

  /** A settled Designated Port that hears a Designated message of another origin stays Designated if and only if the
      vector is not better or the message has no lifetime left. */
  lemma HearingDecidesRole(tree: Tree, ports: seq<Port>, i: nat, c: PI.Column, cfg: Config)
    requires SettledDesignated(tree, ports, i, c) && HearsDesignated(c)
    requires !PI.SameOrigin(PI.CistVec(c.prt.bpdu), c.ptps[0].portPriority)
    ensures RoleAfter(tree, ports, i, PI.Rest(c, 0, cfg)) == RoleDesignated <==>
            !StrictlyBetter(PI.CistVec(c.prt.bpdu), c.ptps[0].portPriority, true) || !Lives(c, cfg)
  {
    var r := PI.Rest(c, 0, cfg);
    RunOnDesignated(c, cfg);
    PIT.RestIsFramed(c, 0, cfg);
    var after, ports' := tree.(ptps := tree.ptps[i := r.ptps[0]]), ports[i := r.prt];
    SameRootForFramedPort(tree, ports, i, r.prt, |ports|);
    if r.ptps[0].infoIs == IoReceived {
      BetterInformationIsNotDesignated(tree, ports', i, r.ptps[0]);
    } else {
      OwnInformationIsDesignated(after, ports', i);
    }
  }

  lemma SameKeySameVec(v: Vec, w: Vec, p: u16, q: u16)
    requires Key(v, p, true) == Key(w, q, true)
    ensures v == w && p == q
  {
    IdNumberOrders(v.rootId, w.rootId);
    IdNumberOrders(v.rrootId, w.rrootId);
    IdNumberOrders(v.desBridge, w.desBridge);
    assert Key(v, p, true)[0] == Key(w, q, true)[0] && Key(v, p, true)[1] == Key(w, q, true)[1];
    assert Key(v, p, true)[2] == Key(w, q, true)[2] && Key(v, p, true)[3] == Key(w, q, true)[3];
    assert Key(v, p, true)[4] == Key(w, q, true)[4] && Key(v, p, true)[5] == Key(w, q, true)[5];
    assert Key(v, p, true)[6] == Key(w, q, true)[6];
  }

  /** Two settled Designated Ports on one link, each hearing the vector of the other: after role selection at least one
      is still Designated, and exactly one is if and only if the message with the better vector has a lifetime. */
  lemma ExactlyOneStaysDesignated(t1: Tree, ports1: seq<Port>, i: nat, c1: PI.Column, cfg1: Config,
                                  t2: Tree, ports2: seq<Port>, j: nat, c2: PI.Column, cfg2: Config)
    requires SettledDesignated(t1, ports1, i, c1) && HearsDesignated(c1)
    requires SettledDesignated(t2, ports2, j, c2) && HearsDesignated(c2)
    requires PI.CistVec(c1.prt.bpdu) == c2.ptps[0].portPriority && PI.CistVec(c2.prt.bpdu) == c1.ptps[0].portPriority
    requires !PI.SameOrigin(c1.ptps[0].portPriority, c2.ptps[0].portPriority)
    ensures var d1 := RoleAfter(t1, ports1, i, PI.Rest(c1, 0, cfg1)) == RoleDesignated;
            var d2 := RoleAfter(t2, ports2, j, PI.Rest(c2, 0, cfg2)) == RoleDesignated;
            && (d1 || d2)
            && (d1 != d2 <==>
                  if StrictlyBetter(c2.ptps[0].portPriority, c1.ptps[0].portPriority, true) then Lives(c1, cfg1)
                  else Lives(c2, cfg2))
  {
    var v, w := c1.ptps[0].portPriority, c2.ptps[0].portPriority;
    HearingDecidesRole(t1, ports1, i, c1, cfg1);
    HearingDecidesRole(t2, ports2, j, c2, cfg2);
    BetterOrSameTotal(v, w, 0, 0, true);
    if BetterOrSame(v, w, 0, 0, true) && BetterOrSame(w, v, 0, 0, true) {
      BetterOrSameAntisymmetric(v, w, 0, 0, true);
    }
  }
}
