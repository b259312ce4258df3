/** The smaller state machines of a port: receive (13.28), protocol migration (13.29), bridge detection (13.30)
    and state transition (13.35). */
module PortMachines {
  import opened Types
  import opened PortInfo

  // ---- Port Receive ----

  predicate FromSameRegion(prt: Port, cfg: Config) {
    prt.bpdu.version == ProtoMSTP && cfg.configId == prt.bpdu.configId
  }

  /** The first MSTI message that carries the given tree number in its regional root identifier. */
  function FindMsti(t: MstiTable, n: nat, mstid: u16, from: nat): (r: Option<MstiIndex>)
    ensures r.Some? ==> from <= r.value < n && t[r.value].rrootId.priority % 0x1000 == mstid
    ensures r.Some? ==> forall j :: from <= j < r.value ==> t[j].rrootId.priority % 0x1000 != mstid
    ensures r.None? ==> forall j :: from <= j < n && j < MAX_STANDARD_MSTIS ==> t[j].rrootId.priority % 0x1000 != mstid
    decreases n - from
  {
    if from >= n || from >= MAX_STANDARD_MSTIS then None
    else if t[from].rrootId.priority % 0x1000 == mstid then Some(from)
    else FindMsti(t, n, mstid, from + 1)
  }

  /** `setRcvdMsgs`: the CIST always gets the message, an MSTI only its own part of an internal one. */
  function DeliveredTo(p: Ptp, prt: Port): Ptp {
    if p.mstid == 0 then p.(rcvdMsg := On)
    else if prt.rcvdInternal.Off? then p
    else
      var f := FindMsti(prt.bpdu.mstis, prt.numMstis, p.mstid, 0);
      if f.Some? then p.(rcvdMsg := On, rcvdMsti := f.value) else p
  }

  predicate Pending(ptps: seq<Ptp>) {
    exists k :: 0 <= k < |ptps| && ptps[k].rcvdMsg.On?
  }

  /** The dry run of `clearAllRcvdMsgs`. */
  predicate ClearDry(ptps: seq<Ptp>) {
    Pending(ptps)
  }

  /** The test of its own that `PRSM_to_DISCARD` makes in a dry run. */
  predicate DiscardDry(c: Column, cfg: Config) {
    || c.prt.prsm != RxDiscard || c.prt.rcvdBpdu.On? || c.prt.rcvdRSTP.On? || c.prt.rcvdSTP.On?
    || c.prt.edgeDelayWhile != cfg.migrateTime || ClearDry(c.ptps)
  }

  /** What `PRSM_run` reports in a dry run. */
  predicate PrsmDry(c: Column, cfg: Config) {
    match PrsmTarget(c, cfg)
    case Some(RxDiscard) => DiscardDry(c, cfg)
    case Some(RxReceive) => true
    case None => false
  }

  /** The entry actions of DISCARD. */
  function Discarded(c: Column, cfg: Config): (r: Column)
    ensures |r.ptps| == |c.ptps|
  {
    Column(c.prt.(prsm := RxDiscard, rcvdBpdu := Off, rcvdRSTP := Off, rcvdSTP := Off,
                  edgeDelayWhile := cfg.migrateTime),
           seq(|c.ptps|, k requires 0 <= k < |c.ptps| => c.ptps[k].(rcvdMsg := Off)))
  }

  /** The hand-written test is exact for every port: it holds if and only if the actions change something. */
  lemma DiscardDryIffChange(c: Column, cfg: Config)
    ensures DiscardDry(c, cfg) <==> Discarded(c, cfg) != c
  {
    var r := Discarded(c, cfg);
    if Pending(c.ptps) {
      var k :| 0 <= k < |c.ptps| && c.ptps[k].rcvdMsg.On?;
      assert r.ptps[k] != c.ptps[k];
    } else {
      assert r.ptps == c.ptps;
    }
  }

  /** The dry run reports a change exactly when the run makes one. */
  lemma PrsmDryIffChange(c: Column, cfg: Config)
    ensures PrsmDry(c, cfg) <==> PrsmRun(c, cfg) != c
  {
    DiscardDryIffChange(c, cfg);
  }

  function PrsmTarget(c: Column, cfg: Config): Option<PrsmState> {
    if (c.prt.rcvdBpdu.On? || c.prt.edgeDelayWhile != cfg.migrateTime) && c.prt.portEnabled.Off? then Some(RxDiscard)
    else if c.prt.rcvdBpdu.On? && c.prt.portEnabled.On?
           && (c.prt.prsm == RxDiscard || !Pending(c.ptps)) then Some(RxReceive)
    else None
  }

  function PrsmRun(c: Column, cfg: Config): (r: Column)
    ensures |r.ptps| == |c.ptps|
  {
    match PrsmTarget(c, cfg)
    case None => c
    case Some(RxDiscard) => Discarded(c, cfg)
    case Some(RxReceive) =>
      var rstp := c.prt.bpdu.version != ProtoSTP;
      var prt := c.prt.(prsm := RxReceive,
                        rcvdRSTP := if rstp then On else c.prt.rcvdRSTP, rcvdSTP := if rstp then c.prt.rcvdSTP else On,
                        rcvdInternal := FlagOf(FromSameRegion(c.prt, cfg)),
                        operEdge := Off, rcvdBpdu := Off, edgeDelayWhile := cfg.migrateTime);
      Column(prt, seq(|c.ptps|, k requires 0 <= k < |c.ptps| => DeliveredTo(c.ptps[k], prt)))
  }

  // ---- Port Protocol Migration ----

  function PpmsmTarget(prt: Port, cfg: Config): Option<PpmsmState> {
    match prt.ppmsm
    case CheckingRstp =>
      if prt.mdelayWhile != cfg.migrateTime && prt.portEnabled.Off? then Some(CheckingRstp)
      else if prt.mdelayWhile == 0 then Some(Sensing)
      else None
    case SelectingStp =>
      if prt.mdelayWhile == 0 || prt.portEnabled.Off? || prt.mcheck.On? then Some(Sensing) else None
    case Sensing =>
      if prt.portEnabled.Off? || prt.mcheck.On? || (RstpVersion(cfg) && prt.sendRSTP.Off? && prt.rcvdRSTP.On?)
      then Some(CheckingRstp)
      else if prt.sendRSTP.On? && prt.rcvdSTP.On? then Some(SelectingStp)
      else None
  }

  function PpmsmEnter(prt: Port, x: PpmsmState, cfg: Config): Port {
    match x
    case CheckingRstp => prt.(ppmsm := x, mcheck := Off, sendRSTP := FlagOf(RstpVersion(cfg)),
                              mdelayWhile := cfg.migrateTime)
    case SelectingStp => prt.(ppmsm := x, sendRSTP := Off, mdelayWhile := cfg.migrateTime)
    case Sensing => prt.(ppmsm := x, rcvdRSTP := Off, rcvdSTP := Off)
  }

  function PpmsmWork(prt: Port): nat {
    if prt.ppmsm != Sensing then 1 else if prt.rcvdSTP.On? then 2 else 0
  }

  /** Entering CHECKING_RSTP ends the run. */
  function PpmsmRun(prt: Port, cfg: Config): Port
    decreases PpmsmWork(prt)
  {
    match PpmsmTarget(prt, cfg)
    case None => prt
    case Some(x) =>
      var next := PpmsmEnter(prt, x, cfg);
      if x == CheckingRstp then next else PpmsmRun(next, cfg)
  }

  predicate PpmsmFrame(a: Port, b: Port) {
    b == a.(ppmsm := b.ppmsm, mcheck := b.mcheck, sendRSTP := b.sendRSTP, mdelayWhile := b.mdelayWhile,
            rcvdRSTP := b.rcvdRSTP, rcvdSTP := b.rcvdSTP)
  }

  /** With a nonzero Migrate Time the machine is at rest after a run; it never sends RST BPDUs when forced to STP. */
  lemma {:induction false} PpmsmComesToRest(prt: Port, cfg: Config)
    requires cfg.migrateTime > 0
    ensures var r := PpmsmRun(prt, cfg);
            && PpmsmTarget(r, cfg).None? && PpmsmFrame(prt, r)
            && (!RstpVersion(cfg) && prt.sendRSTP.Off? ==> r.sendRSTP.Off?)
    decreases PpmsmWork(prt)
  {
    match PpmsmTarget(prt, cfg)
    case None =>
    case Some(x) =>
      var next := PpmsmEnter(prt, x, cfg);
      if x != CheckingRstp { PpmsmComesToRest(next, cfg); }
  }

  /** The dry run reports a change exactly when the run makes one. */
  lemma PpmsmDryIffChange(prt: Port, cfg: Config)
    requires cfg.migrateTime > 0
    ensures PpmsmTarget(prt, cfg).Some? <==> PpmsmRun(prt, cfg) != prt
  {
    match PpmsmTarget(prt, cfg)
    case None =>
    case Some(x) =>
      var next := PpmsmEnter(prt, x, cfg);
      if x != CheckingRstp && PpmsmTarget(next, cfg).Some? {
        var y := PpmsmTarget(next, cfg).value;
        assert x == Sensing ==> y == CheckingRstp;
      }
  }

  // ---- Bridge Detection ----

  function BdsmTarget(prt: Port, cist: Ptp): Option<BdsmState> {
    match prt.bdsm
    case Edge =>
      if ((prt.portEnabled.Off? || prt.autoEdge.Off?) && prt.adminEdge.Off?) || prt.operEdge.Off? then Some(NotEdge)
      else None
    case NotEdge =>
      if (prt.portEnabled.Off? && prt.adminEdge.On?)
         || (prt.edgeDelayWhile == 0 && prt.autoEdge.On? && prt.sendRSTP.On? && cist.proposing.On?) then Some(Edge)
      else None
  }

  function BdsmRun(prt: Port, cist: Ptp): Port {
    match BdsmTarget(prt, cist)
    case None => prt
    case Some(Edge) => prt.(bdsm := Edge, operEdge := On)
    case Some(NotEdge) => prt.(bdsm := NotEdge, operEdge := Off)
  }

  // ---- Port State Transition ----

  function PstsmTarget(p: Ptp): Option<PstsmState> {
    match p.pstsm
    case PsDiscarding => if p.learn.On? then Some(PsLearning) else None
    case PsLearning => if p.learn.Off? then Some(PsDiscarding) else if p.forward.On? then Some(PsForwarding) else None
    case PsForwarding => if p.forward.Off? then Some(PsDiscarding) else None
  }

  function BrStateOf(x: PstsmState): BrState {
    match x
    case PsDiscarding => BrBlocking
    case PsLearning => BrLearning
    case PsForwarding => BrForwarding
  }

  /** The kernel is told only when the state differs and the port still exists. */
  function PstsmEnter(p: Ptp, x: PstsmState, deleted: Flag): Ptp {
    var q := p.(pstsm := x, brState := if deleted.Off? then BrStateOf(x) else p.brState);
    match x
    case PsDiscarding => q.(learning := Off, forwarding := Off)
    case PsLearning => q.(learning := On)
    case PsForwarding => q.(forwarding := On)
  }

  function PstsmSent(p: Ptp, x: PstsmState, deleted: Flag, port: nat): seq<Output> {
    if deleted.Off? && p.brState != BrStateOf(x) then [SetState(port, p.mstid, BrStateOf(x))] else []
  }

  function PstsmWork(p: Ptp): nat {
    match p.pstsm
    case PsDiscarding => if p.learn.Off? then 0 else if p.forward.Off? then 1 else 2
    case PsLearning => if p.learn.Off? then 1 else if p.forward.On? then 1 else 0
    case PsForwarding => if p.forward.Off? then 3 else 0
  }

  function PstsmRun(p: Ptp, deleted: Flag, port: nat): (Ptp, seq<Output>)
    decreases PstsmWork(p)
  {
    match PstsmTarget(p)
    case None => (p, [])
    case Some(x) =>
      var next := PstsmRun(PstsmEnter(p, x, deleted), deleted, port);
      (next.0, PstsmSent(p, x, deleted, port) + next.1)
  }

  /** The state records whether the port learns and forwards. */
  predicate StateFits(p: Ptp) {
    match p.pstsm
    case PsDiscarding => p.learning.Off? && p.forwarding.Off?
    case PsLearning => p.learning.On? && p.forwarding.Off?
    case PsForwarding => p.learning.On? && p.forwarding.On?
  }

  /** After a run the port learns and forwards exactly as the role transitions want it to. */
  lemma {:induction false} PstsmAligns(p: Ptp, deleted: Flag, port: nat)
    requires StateFits(p) && (p.forward.On? ==> p.learn.On?)
    ensures var q := PstsmRun(p, deleted, port).0;
            && PstsmTarget(q).None? && StateFits(q) && q.learning == p.learn && q.forwarding == p.forward
            && q == p.(pstsm := q.pstsm, brState := q.brState, learning := q.learning, forwarding := q.forwarding)
    decreases PstsmWork(p)
  {
    match PstsmTarget(p)
    case None =>
    case Some(x) => PstsmAligns(PstsmEnter(p, x, deleted), deleted, port);
  }

  /** The dry run reports a change exactly when the run makes one. */
  lemma {:induction false} PstsmDryIffChange(p: Ptp, deleted: Flag, port: nat)
    ensures PstsmTarget(p).Some? <==> PstsmRun(p, deleted, port) != (p, [])
    ensures PstsmTarget(p).Some? ==> PstsmWork(PstsmRun(p, deleted, port).0) < PstsmWork(p)
    decreases PstsmWork(p)
  {
    match PstsmTarget(p)
    case None =>
    case Some(x) => PstsmDryIffChange(PstsmEnter(p, x, deleted), deleted, port);
  }

  /** Every message names a state that the kernel is not in yet, and together they lead from one state to the other. */
  predicate Told(outs: seq<Output>, port: nat, mstid: u16, from: BrState, to: BrState) {
    if outs == [] then from == to
    else outs[0].SetState? && outs[0] == SetState(port, mstid, outs[0].state) && outs[0].state != from
         && Told(outs[1..], port, mstid, outs[0].state, to)
  }

  /** The kernel's view follows: on an existing port it is told of every change and of nothing else, and ends up in the
      state that the machine is in. */
  lemma {:induction false} KernelFollows(p: Ptp, port: nat)
    ensures var r := PstsmRun(p, Off, port);
            && Told(r.1, port, p.mstid, p.brState, r.0.brState)
            && (PstsmTarget(p).Some? ==> r.0.brState == BrStateOf(r.0.pstsm))
    decreases PstsmWork(p)
  {
    match PstsmTarget(p)
    case None =>
    case Some(x) =>
      var q := PstsmEnter(p, x, Off);
      KernelFollows(q, port);
      var sent, next := PstsmSent(p, x, Off, port), PstsmRun(q, Off, port);
      if sent != [] { assert (sent + next.1)[1..] == next.1; } else { assert sent + next.1 == next.1; }
  }
}
