/** Properties of the Port Information state machine and of the classification of messages. */
module PortInfoTheorems {
  import opened Types
  import opened Vectors
  import opened PortInfo
  import Roles
  import RoleTheorems

  // ---- Running to rest ----

  /** The information origin that belongs to each state. */
  predicate OriginFits(p: Ptp) {
    match p.pism
    case PiDisabled => p.infoIs == IoDisabled
    case PiAged => p.infoIs == IoAged
    case PiUpdate => p.infoIs == IoMine
    case PiSuperior => p.infoIs == IoReceived
    case _ => p.infoIs == IoMine || p.infoIs == IoReceived
  }

  /** The machine stops only in DISABLED, AGED or CURRENT, with the origin that belongs to the state and
      nothing left to do. Received information whose lifetime is over is not kept unless an update of the port's
      own information or an unread message is pending. */
  lemma {:induction false} RestComesToRest(c: Column, k: nat, cfg: Config)
    requires k < |c.ptps| && OriginFits(c.ptps[k])
    ensures var r := Rest(c, k, cfg);
            var p := r.ptps[k];
            && Target(r, k).None? && OriginFits(p)
            && (p.pism == PiDisabled || p.pism == PiAged || p.pism == PiCurrent)
            && (p.infoIs == IoReceived && p.rcvdInfoWhile == 0 ==> p.updtInfo.On? || p.rcvdMsg.On?)
            && (c.prt.portEnabled.Off? ==> p.pism == PiDisabled && p.rcvdMsg.Off?)
    decreases Measure(c, k)
  {
    var t := Target(c, k);
    if t.Some? {
      StepDecreases(c, k, cfg);
      EnterControls(c, k, t.value, cfg);
      var next := Enter(c, k, t.value, cfg);
      OriginStep(c, next, k);
      RestComesToRest(next, k, cfg);
    } else {
      AtRest(c, k);
    }
  }

  /** The dry run, which reports whether there is a transition, reports a change exactly when the run makes one. */
  lemma DryIffChange(c: Column, k: nat, cfg: Config)
    requires k < |c.ptps|
    ensures Target(c, k).Some? <==> Rest(c, k, cfg) != c
  {
    if Target(c, k).Some? { RestLowersMeasure(c, k, cfg); }
  }

  lemma {:induction false} RestLowersMeasure(c: Column, k: nat, cfg: Config)
    requires k < |c.ptps| && Target(c, k).Some?
    ensures Measure(Rest(c, k, cfg), k) < Measure(c, k)
    decreases Measure(c, k)
  {
    StepDecreases(c, k, cfg);
    var next := Enter(c, k, Target(c, k).value, cfg);
    if Target(next, k).Some? { RestLowersMeasure(next, k, cfg); }
  }

  lemma OriginStep(c: Column, r: Column, k: nat)
    requires k < |c.ptps| == |r.ptps| && OriginFits(c.ptps[k]) && Target(c, k).Some?
    requires Controlled(c, r, k, Target(c, k).value)
    ensures OriginFits(r.ptps[k])
  {
  }

  lemma AtRest(c: Column, k: nat)
    requires k < |c.ptps| && OriginFits(c.ptps[k]) && Target(c, k).None?
    ensures var p := c.ptps[k];
            && (p.pism == PiDisabled || p.pism == PiAged || p.pism == PiCurrent)
            && (p.infoIs == IoReceived && p.rcvdInfoWhile == 0 ==> p.updtInfo.On? || p.rcvdMsg.On?)
            && (c.prt.portEnabled.Off? ==> p.pism == PiDisabled && p.rcvdMsg.Off?)
  {
  }

  lemma {:induction false} RestIsFramed(c: Column, k: nat, cfg: Config)
    requires k < |c.ptps|
    ensures Framed(c, Rest(c, k, cfg), k)
    decreases Measure(c, k)
  {
    var t := Target(c, k);
    if t.Some? {
      StepDecreases(c, k, cfg);
      EnterControls(c, k, t.value, cfg);
      var next := Enter(c, k, t.value, cfg);
      RestIsFramed(next, k, cfg);
      FramesCompose(c, next, Rest(next, k, cfg), k);
    }
  }

  /** The Hello Time of a port is never 0, nor is the one it would take over once its role is selected. */
  predicate HelloOk(p: Ptp) {
    p.portTimes.hello > 0 && (p.selected.On? ==> p.designatedTimes.hello > 0)
  }

  lemma {:induction false} RestKeepsHello(c: Column, k: nat, cfg: Config)
    requires k < |c.ptps| && HelloOk(c.ptps[k])
    ensures HelloOk(Rest(c, k, cfg).ptps[k])
    decreases Measure(c, k)
  {
    var t := Target(c, k);
    if t.Some? {
      StepDecreases(c, k, cfg);
      EnterControls(c, k, t.value, cfg);
      RestKeepsHello(Enter(c, k, t.value, cfg), k, cfg);
    }
  }

  // ---- Classification ----

  /** A Designated message is Superior exactly when its vector is better or it comes from the designated port
      itself, and Inferior otherwise; a message of another role is Inferior exactly when it is not better.
      Repeated is never reported. */
  lemma Classification(p: Ptp, designated: bool, cist: bool)
    ensures var superior := StrictlyBetter(p.msgPriority, p.portPriority, cist)
            || SameOrigin(p.msgPriority, p.portPriority);
            designated ==> Classify(p, true, cist) == if superior then SuperiorDesignated else InferiorDesignated
    ensures !designated ==>
              Classify(p, false, cist)
              == if StrictlyBetter(p.msgPriority, p.portPriority, cist) then OtherInfo else InferiorRootAlternate
  {
    if BetterOrSame(p.portPriority, p.msgPriority, 0, 0, cist)
      && BetterOrSame(p.msgPriority, p.portPriority, 0, 0, cist) {
      BetterOrSameAntisymmetric(p.msgPriority, p.portPriority, 0, 0, cist);
    }
  }

  /** The state machine never enters REPEATED_DESIGNATED from a message. */
  lemma RepeatedIsNeverReported(c: Column, k: nat, cfg: Config)
    requires k < |c.ptps|
    ensures RcvInfo(c, k, cfg).ptps[k].rcvdInfo != RepeatedDesignated
  {
    var p, b := c.ptps[k], c.prt.bpdu;
    var d := ConveysDesignated(b, b.mstis[p.rcvdMsti], p.mstid == 0);
    if b.bpduType != TypeTcn && d.Some? {
      Classification(Decoded(p, b, cfg), d.value, p.mstid == 0);
    }
  }

  /** Two ports of different origin that hear each other's own vector: exactly one of them hears a superior one. */
  lemma ExactlyOneSuperior(p: Ptp, q: Ptp, cist: bool)
    requires p.msgPriority == q.portPriority && q.msgPriority == p.portPriority
    requires !SameOrigin(p.portPriority, q.portPriority)
    ensures Classify(p, true, cist) == SuperiorDesignated <==> Classify(q, true, cist) == InferiorDesignated
    ensures Classify(p, true, cist) == InferiorDesignated <==> Classify(q, true, cist) == SuperiorDesignated
  {
    Classification(p, true, cist);
    Classification(q, true, cist);
    BetterOrSameTotal(p.portPriority, q.portPriority, 0, 0, cist);
    if BetterOrSame(p.portPriority, q.portPriority, 0, 0, cist)
      && BetterOrSame(q.portPriority, p.portPriority, 0, 0, cist) {
      BetterOrSameAntisymmetric(p.portPriority, q.portPriority, 0, 0, cist);
    }
  }
}
