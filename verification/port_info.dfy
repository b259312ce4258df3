/** Received information: `rcvInfo` (section 13.26.6) and the Port Information state machine (13.32). */
module PortInfo {
  import opened Types
  import opened Vectors

  /** A port with its list of per-tree entries; entry 0 is the CIST. */
  datatype Column = Column(prt: Port, ptps: seq<Ptp>)

  predicate ColumnOk(c: Column) {
    |c.ptps| > 0 && forall k :: 0 <= k < |c.ptps| ==> (c.ptps[k].mstid == 0 <==> k == 0)
  }

  function Put(c: Column, k: nat, p: Ptp): (r: Column)
    requires k < |c.ptps|
    ensures |r.ptps| == |c.ptps| && r.ptps[k] == p
  {
    c.(ptps := c.ptps[k := p])
  }

  // ---- The message ----

  /** Whole seconds, rounded; the octet wraps around. */
  function NearestSecond(t: WireTime): u8 {
    if t.frac < 128 then t.whole else (t.whole + 1) % 0x100
  }

  /** Writes the four priority bits of a 16-bit identifier. */
  function SetPriority(pri: u8, id: u16): u16 {
    pri / 16 * 0x1000 + id % 0x1000
  }

  function CistVec(b: Bpdu): Vec {
    if b.version == ProtoMSTP then Vec(b.rrootId, b.intCost, b.bridgeId, b.portId, b.rootId, b.extCost)
    else Vec(b.rrootId, 0, b.rrootId, b.portId, b.rootId, b.extCost)
  }

  function CistTimes(b: Bpdu, maxHops: u8): Times {
    Times(if b.version == ProtoMSTP then b.hops else maxHops, NearestSecond(b.forwardDelay),
          NearestSecond(b.maxAge), NearestSecond(b.messageAge), NearestSecond(b.helloTime))
  }

  /** An MSTI message fills neither the CIST Root nor the external cost of the vector. */
  function MstiVec(b: Bpdu, m: MstiMsg, mstid: u16, was: Vec): Vec {
    was.(rrootId := m.rrootId, intCost := m.intCost,
         desBridge := BridgeId(SetPriority(m.bridgePriority, mstid), b.bridgeId.mac),
         desPort := SetPriority(m.portPriority, b.portId))
  }

  /** Whether the message conveys a Designated role, or None when it is not classified further. */
  function ConveysDesignated(b: Bpdu, m: MstiMsg, cist: bool): Option<bool> {
    if cist && b.version == ProtoSTP then Some(true)
    else if !cist && b.version != ProtoMSTP then None
    else match (if cist then b.flags else m.flags).role
      case EncAlternateBackup => Some(false)
      case EncRoot => Some(false)
      case EncDesignated => Some(true)
      case EncMaster => if cist && b.version == ProtoRSTP then Some(true) else None
  }

  predicate SameOrigin(v: Vec, w: Vec) {
    v.desBridge.mac == w.desBridge.mac && v.desPort % 0x1000 == w.desPort % 0x1000
  }

  /** The classification of a decoded message, branch by branch. */
  function Classify(p: Ptp, designated: bool, cist: bool): Info {
    var better := !BetterOrSame(p.portPriority, p.msgPriority, 0, 0, cist);
    var same := SamePriorityAndTimers(p.msgPriority, p.portPriority, p.msgTimes, p.portTimes, cist);
    if designated then
      if better || SameOrigin(p.msgPriority, p.portPriority) then SuperiorDesignated
      else if !same && BetterOrSame(p.msgPriority, p.portPriority, 0, 0, cist) then SuperiorDesignated
      else if same && p.infoIs == IoReceived then RepeatedDesignated
      else InferiorDesignated
    else if !better then InferiorRootAlternate
    else OtherInfo
  }

  function Decoded(p: Ptp, b: Bpdu, cfg: Config): Ptp {
    if p.mstid == 0 then p.(msgPriority := CistVec(b), msgTimes := CistTimes(b, cfg.maxHops))
    else
      var m := b.mstis[p.rcvdMsti];
      p.(msgPriority := MstiVec(b, m, p.mstid, p.msgPriority), msgTimes := p.msgTimes.(hops := m.hops))
  }

  /** `rcvInfo`: a TCN is noted on every tree; any other message is decoded and classified. */
  function RcvInfo(c: Column, k: nat, cfg: Config): (r: Column)
    requires k < |c.ptps|
    ensures |r.ptps| == |c.ptps|
  {
    var p, b := c.ptps[k], c.prt.bpdu;
    var designated := ConveysDesignated(b, b.mstis[p.rcvdMsti], p.mstid == 0);
    if b.bpduType == TypeTcn then
      Column(c.prt.(rcvdTcn := On),
             seq(|c.ptps|, j requires 0 <= j < |c.ptps| =>
                   if j == k then c.ptps[j].(rcvdTc := On, rcvdInfo := OtherInfo) else c.ptps[j].(rcvdTc := On)))
    else if designated.None? then Put(c, k, p.(rcvdInfo := OtherInfo))
    else
      var q := Decoded(p, b, cfg);
      Put(c, k, q.(rcvdInfo := Classify(q, designated.value, p.mstid == 0)))
  }

  // ---- Recording the message ----

  /** The flags that concern tree `k`: those of the BPDU for the CIST, of the MSTI message otherwise. */
  function FlagsFor(c: Column, k: nat): FlagOctet
    requires k < |c.ptps|
  {
    if c.ptps[k].mstid == 0 then c.prt.bpdu.flags else c.prt.bpdu.mstis[c.ptps[k].rcvdMsti].flags
  }

  /** An external message on the CIST also speaks for the MSTIs of the port. */
  predicate SpeaksFor(c: Column, k: nat, j: nat)
    requires k < |c.ptps|
  {
    j > k && c.ptps[k].mstid == 0 && c.prt.rcvdInternal.Off?
  }

  function RecordAgreement(c: Column, k: nat, cfg: Config): (r: Column)
    requires k < |c.ptps|
    ensures |r.ptps| == |c.ptps|
  {
    var p, b, prt := c.ptps[k], c.prt.bpdu, c.prt;
    var cist := c.ptps[0].portPriority;
    var ok :=
      if p.mstid == 0 then RstpVersion(cfg) && prt.pointToPoint.On? && FlagsFor(c, k).agreement
      else prt.pointToPoint.On? && b.rootId == cist.rootId && b.extCost == cist.extCost
           && b.rrootId == cist.rrootId && FlagsFor(c, k).agreement;
    var q := if ok then p.(agreed := On, proposing := Off) else p.(agreed := Off);
    c.(ptps := seq(|c.ptps|, j requires 0 <= j < |c.ptps| =>
                     if j == k then q
                     else if SpeaksFor(c, k, j) then c.ptps[j].(agreed := q.agreed, proposing := q.proposing)
                     else c.ptps[j]))
  }

  function RecordDispute(c: Column, k: nat): (r: Column)
    requires k < |c.ptps|
    ensures |r.ptps| == |c.ptps|
  {
    if FlagsFor(c, k).learning then
      c.(ptps := seq(|c.ptps|, j requires 0 <= j < |c.ptps| =>
                       if j == k || SpeaksFor(c, k, j) then c.ptps[j].(disputed := On, agreed := Off) else c.ptps[j]))
    else c
  }

  function RecordMastered(c: Column, k: nat): (r: Column)
    requires k < |c.ptps|
    ensures |r.ptps| == |c.ptps|
  {
    c.(ptps := seq(|c.ptps|, j requires 0 <= j < |c.ptps| =>
                     if j == k && c.ptps[k].mstid != 0 then
                       c.ptps[k].(mastered := FlagOf(c.prt.pointToPoint.On? && FlagsFor(c, k).tcAck))
                     else if SpeaksFor(c, k, j) then c.ptps[j].(mastered := Off)
                     else c.ptps[j]))
  }

  function RecordProposal(c: Column, k: nat): (r: Column)
    requires k < |c.ptps|
    ensures |r.ptps| == |c.ptps|
  {
    var q := if FlagsFor(c, k).proposal then c.ptps[k].(proposed := On) else c.ptps[k];
    c.(ptps := seq(|c.ptps|, j requires 0 <= j < |c.ptps| =>
                     if j == k then q
                     else if SpeaksFor(c, k, j) then c.ptps[j].(proposed := q.proposed)
                     else c.ptps[j]))
  }

  /** `setTcFlags`. On an external message the code raises `proposed` of the MSTIs. */
  function SetTcFlags(c: Column, k: nat): (r: Column)
    requires k < |c.ptps|
    ensures |r.ptps| == |c.ptps|
  {
    var f := FlagsFor(c, k);
    var prt := if c.ptps[k].mstid == 0 && f.tcAck then c.prt.(rcvdTcAck := On) else c.prt;
    if f.tc then
      Column(prt, seq(|c.ptps|, j requires 0 <= j < |c.ptps| =>
                        if j == k then c.ptps[k].(rcvdTc := On)
                        else if SpeaksFor(c, k, j) then c.ptps[j].(proposed := On)
                        else c.ptps[j]))
    else c.(prt := prt)
  }

  /** Section 13.26.22, on the tree's own remaining hops. */
  function InfoLifetime(c: Column, k: nat): nat
    requires k < |c.ptps|
  {
    var t := c.ptps[0].portTimes;
    if (c.prt.rcvdInternal.Off? && t.messageAge + 1 <= t.maxAge)
       || (c.prt.rcvdInternal.On? && c.ptps[k].portTimes.hops > 1)
    then 3 * t.hello else 0
  }

  predicate BetterOrSameInfo(p: Ptp, newInfoIs: InfoIs) {
    if newInfoIs == IoReceived && p.infoIs == IoReceived then
      BetterOrSame(p.msgPriority, p.portPriority, 0, 0, p.mstid == 0)
    else if newInfoIs == IoMine && p.infoIs == IoMine then
      BetterOrSame(p.designatedPriority, p.portPriority, 0, 0, p.mstid == 0)
    else false
  }

  /** The entry actions of SUPERIOR_DESIGNATED up to the agreement. */
  function NoteSuperior(c: Column, k: nat, cfg: Config): (r: Column)
    requires k < |c.ptps|
    ensures |r.ptps| == |c.ptps|
  {
    var c1 := Column(c.prt.(infoInternal := c.prt.rcvdInternal),
                     c.ptps[k := c.ptps[k].(agreed := Off, proposing := Off)]);
    var c2 := SetTcFlags(RecordProposal(c1, k), k);
    var p2 := c2.ptps[k];
    RecordAgreement(Put(c2, k, p2.(agree := if BetterOrSameInfo(p2, IoReceived) then p2.agree else Off)), k, cfg)
  }

  /** The rest of them: the message becomes the port's information. */
  function RecordSuperior(c: Column, k: nat): (r: Column)
    requires k < |c.ptps|
    ensures |r.ptps| == |c.ptps|
  {
    var p := c.ptps[k];
    var c1 := Put(c, k, p.(synced := if p.agreed.On? then p.synced else Off,
                           portPriority := p.msgPriority, portTimes := p.msgTimes.(hello := p.portTimes.hello)));
    Put(c1, k, c1.ptps[k].(rcvdInfoWhile := InfoLifetime(c1, k), infoIs := IoReceived,
                           reselect := On, selected := Off, rcvdMsg := Off))
  }

  // ---- The state machine ----

  predicate RcvdXstMsg(c: Column, k: nat)
    requires k < |c.ptps|
  {
    c.ptps[k].rcvdMsg.On? && (c.ptps[k].mstid != 0 ==> c.ptps[0].rcvdMsg.Off?)
  }

  predicate UpdtXstInfo(c: Column, k: nat)
    requires k < |c.ptps|
  {
    c.ptps[k].updtInfo.On? || (c.ptps[k].mstid != 0 && c.ptps[0].updtInfo.On?)
  }

  /** The state entered next, or None at rest. */
  function Target(c: Column, k: nat): Option<PismState>
    requires k < |c.ptps|
  {
    var p := c.ptps[k];
    if c.prt.portEnabled.Off? && p.infoIs != IoDisabled then Some(PiDisabled)
    else match p.pism
      case PiDisabled =>
        if c.prt.portEnabled.On? then Some(PiAged)
        else if p.rcvdMsg.On? then Some(PiDisabled)
        else None
      case PiAged => if p.selected.On? && p.updtInfo.On? then Some(PiUpdate) else None
      case PiUpdate | PiSuperior | PiRepeated | PiInferior | PiNotDesignated | PiOther => Some(PiCurrent)
      case PiCurrent =>
        if RcvdXstMsg(c, k) && !UpdtXstInfo(c, k) then Some(PiReceive)
        else if p.infoIs == IoReceived && p.rcvdInfoWhile == 0 && p.updtInfo.Off? && !RcvdXstMsg(c, k) then Some(PiAged)
        else if p.selected.On? && p.updtInfo.On? then Some(PiUpdate)
        else None
      case PiReceive =>
        match p.rcvdInfo
        case SuperiorDesignated => Some(PiSuperior)
        case RepeatedDesignated => Some(PiRepeated)
        case InferiorDesignated => Some(PiInferior)
        case InferiorRootAlternate => Some(PiNotDesignated)
        case OtherInfo => Some(PiOther)
  }

  function Mark(c: Column, k: nat, x: PismState): (r: Column)
    requires k < |c.ptps|
    ensures |r.ptps| == |c.ptps|
  {
    Put(c, k, c.ptps[k].(pism := x))
  }

  function ClearMsg(c: Column, k: nat): (r: Column)
    requires k < |c.ptps|
    ensures |r.ptps| == |c.ptps|
  {
    Put(c, k, c.ptps[k].(rcvdMsg := Off))
  }

  /** Entry actions of state `x`. */
  function Enter(c0: Column, k: nat, x: PismState, cfg: Config): (r: Column)
    requires k < |c0.ptps|
    ensures |r.ptps| == |c0.ptps|
  {
    var c := Mark(c0, k, x);
    var p := c.ptps[k];
    match x
    case PiDisabled =>
      Put(c, k, p.(rcvdMsg := Off, proposing := Off, proposed := Off, agree := Off, agreed := Off,
                   rcvdInfoWhile := 0, infoIs := IoDisabled, reselect := On, selected := Off))
    case PiAged => Put(c, k, p.(infoIs := IoAged, reselect := On, selected := Off))
    case PiUpdate =>
      var agreed := if BetterOrSameInfo(p, IoMine) then p.agreed else Off;
      Column(if p.mstid == 0 then c.prt.(newInfo := On) else c.prt.(newInfoMsti := On),
             c.ptps[k := p.(proposing := Off, proposed := Off, agreed := agreed,
                            synced := if agreed.On? then p.synced else Off,
                            portPriority := p.designatedPriority, portTimes := p.designatedTimes,
                            updtInfo := Off, infoIs := IoMine)])
    case PiSuperior => RecordSuperior(NoteSuperior(c, k, cfg), k)
    case PiRepeated =>
      var c0 := c.(prt := c.prt.(infoInternal := c.prt.rcvdInternal));
      var c1 := RecordAgreement(SetTcFlags(RecordProposal(c0, k), k), k, cfg);
      Put(c1, k, c1.ptps[k].(rcvdInfoWhile := InfoLifetime(c1, k), rcvdMsg := Off))
    case PiInferior => ClearMsg(RecordDispute(c, k), k)
    case PiNotDesignated => ClearMsg(SetTcFlags(RecordAgreement(c, k, cfg), k), k)
    case PiOther => ClearMsg(c, k)
    case PiCurrent => c
    case PiReceive => RecordMastered(RcvInfo(c, k, cfg), k)
  }

  // ---- What the machine may change ----

  predicate OwnFrame(p: Ptp, q: Ptp) {
    q == p.(pism := q.pism, rcvdMsg := q.rcvdMsg, rcvdInfo := q.rcvdInfo, infoIs := q.infoIs,
            rcvdInfoWhile := q.rcvdInfoWhile, updtInfo := q.updtInfo, reselect := q.reselect, selected := q.selected,
            agree := q.agree, agreed := q.agreed, proposed := q.proposed, proposing := q.proposing,
            disputed := q.disputed, synced := q.synced, mastered := q.mastered, rcvdTc := q.rcvdTc,
            msgPriority := q.msgPriority, msgTimes := q.msgTimes, portPriority := q.portPriority,
              portTimes := q.portTimes)
  }

  predicate OtherFrame(p: Ptp, q: Ptp) {
    q == p.(agreed := q.agreed, proposed := q.proposed, proposing := q.proposing, disputed := q.disputed,
            mastered := q.mastered, rcvdTc := q.rcvdTc)
  }

  predicate PortFrame(a: Port, b: Port) {
    b == a.(newInfo := b.newInfo, newInfoMsti := b.newInfoMsti, infoInternal := b.infoInternal,
            rcvdTcAck := b.rcvdTcAck, rcvdTcn := b.rcvdTcn)
  }

  ghost predicate Framed(c: Column, r: Column, k: nat)
    requires k < |c.ptps|
  {
    && |r.ptps| == |c.ptps| && PortFrame(c.prt, r.prt) && OwnFrame(c.ptps[k], r.ptps[k])
    && forall j :: 0 <= j < |c.ptps| && j != k ==> OtherFrame(c.ptps[j], r.ptps[j])
  }

  lemma FramesCompose(a: Column, b: Column, c: Column, k: nat)
    requires k < |a.ptps| && Framed(a, b, k) && Framed(b, c, k)
    ensures Framed(a, c, k)
  {
    forall j | 0 <= j < |a.ptps| && j != k
      ensures OtherFrame(a.ptps[j], c.ptps[j])
    {
      assert OtherFrame(a.ptps[j], b.ptps[j]) && OtherFrame(b.ptps[j], c.ptps[j]);
    }
  }

  lemma PutFramed(c: Column, k: nat, p: Ptp, prt: Port)
    requires k < |c.ptps| && OwnFrame(c.ptps[k], p) && PortFrame(c.prt, prt)
    ensures Framed(c, Column(prt, c.ptps[k := p]), k)
  {
  }

  /** The fields of the own entry that decide how the machine goes on. */
  predicate Control(p: Ptp, q: Ptp) {
    && q.pism == p.pism && q.rcvdMsg == p.rcvdMsg && q.infoIs == p.infoIs && q.updtInfo == p.updtInfo
    && q.selected == p.selected && q.rcvdInfoWhile == p.rcvdInfoWhile
    && q.portTimes == p.portTimes && q.msgTimes == p.msgTimes
    && q.portPriority == p.portPriority && q.msgPriority == p.msgPriority
  }

  lemma RecordAgreementFramed(c: Column, k: nat, cfg: Config)
    requires k < |c.ptps|
    ensures Framed(c, RecordAgreement(c, k, cfg), k) && Control(c.ptps[k], RecordAgreement(c, k, cfg).ptps[k])
  {
  }

  lemma RecordDisputeFramed(c: Column, k: nat)
    requires k < |c.ptps|
    ensures Framed(c, RecordDispute(c, k), k) && Control(c.ptps[k], RecordDispute(c, k).ptps[k])
  {
  }

  lemma RecordMasteredFramed(c: Column, k: nat)
    requires k < |c.ptps|
    ensures Framed(c, RecordMastered(c, k), k) && Control(c.ptps[k], RecordMastered(c, k).ptps[k])
  {
  }

  lemma RecordProposalFramed(c: Column, k: nat)
    requires k < |c.ptps|
    ensures Framed(c, RecordProposal(c, k), k) && Control(c.ptps[k], RecordProposal(c, k).ptps[k])
  {
  }

  lemma SetTcFlagsFramed(c: Column, k: nat)
    requires k < |c.ptps|
    ensures Framed(c, SetTcFlags(c, k), k) && Control(c.ptps[k], SetTcFlags(c, k).ptps[k])
  {
  }

  lemma RcvInfoIsFramed(c: Column, k: nat, cfg: Config)
    requires k < |c.ptps|
    ensures Framed(c, RcvInfo(c, k, cfg), k)
  {
  }

  lemma RcvInfoControls(c: Column, k: nat, cfg: Config)
    requires k < |c.ptps|
    ensures var p, q := c.ptps[k], RcvInfo(c, k, cfg).ptps[k];
            Control(p.(msgTimes := q.msgTimes, msgPriority := q.msgPriority), q)
  {
  }

  lemma ProposalAndTcFramed(c: Column, k: nat)
    requires k < |c.ptps|
    ensures var r := SetTcFlags(RecordProposal(c, k), k);
            Framed(c, r, k) && Control(c.ptps[k], r.ptps[k])
  {
    RecordProposalFramed(c, k);
    var c1 := RecordProposal(c, k);
    SetTcFlagsFramed(c1, k);
    FramesCompose(c, c1, SetTcFlags(c1, k), k);
  }

  lemma NoteSuperiorFramed(c: Column, k: nat, cfg: Config)
    requires k < |c.ptps|
    ensures Framed(c, NoteSuperior(c, k, cfg), k) && Control(c.ptps[k], NoteSuperior(c, k, cfg).ptps[k])
  {
    var p, prt := c.ptps[k].(agreed := Off, proposing := Off), c.prt.(infoInternal := c.prt.rcvdInternal);
    var c1 := Column(prt, c.ptps[k := p]);
    PutFramed(c, k, p, prt);
    ProposalAndTcFramed(c1, k);
    var c2 := SetTcFlags(RecordProposal(c1, k), k);
    FramesCompose(c, c1, c2, k);
    var p2 := c2.ptps[k];
    var p3 := p2.(agree := if BetterOrSameInfo(p2, IoReceived) then p2.agree else Off);
    PutFramed(c2, k, p3, c2.prt);
    var c3 := Put(c2, k, p3);
    FramesCompose(c, c2, c3, k);
    RecordAgreementFramed(c3, k, cfg);
    FramesCompose(c, c3, RecordAgreement(c3, k, cfg), k);
  }

  /** Recording a superior message: the port takes the message's vector and times, keeps its own Hello Time,
      and the information lives for as long as age or remaining hops allow. */
  lemma RecordSuperiorFramed(c: Column, k: nat)
    requires k < |c.ptps|
    ensures var r := RecordSuperior(c, k);
            var p, q := c.ptps[k], r.ptps[k];
            && Framed(c, r, k)
            && q.pism == p.pism && q.rcvdMsg.Off? && q.infoIs == IoReceived && q.updtInfo == p.updtInfo
               && q.selected.Off?
            && q.msgTimes == p.msgTimes && q.portTimes == p.msgTimes.(hello := p.portTimes.hello)
            && q.portPriority == p.msgPriority
            && q.rcvdInfoWhile == InfoLifetime(r, k)
  {
  }

  // ---- Termination ----

  predicate Receiving(x: PismState) {
    x == PiSuperior || x == PiRepeated || x == PiInferior || x == PiNotDesignated || x == PiOther
  }

  /** What entering `x` does to the fields that control the machine. */
  predicate Controlled(c: Column, r: Column, k: nat, x: PismState)
    requires k < |c.ptps| == |r.ptps|
  {
    var p, q := c.ptps[k], r.ptps[k];
    && q.pism == x
    && q.rcvdMsg == (if x == PiDisabled || Receiving(x) then Off else p.rcvdMsg)
    && q.updtInfo == (if x == PiUpdate then Off else p.updtInfo)
    && q.selected == (if x == PiDisabled || x == PiAged || x == PiSuperior then Off else p.selected)
    && q.infoIs == (match x
                    case PiDisabled => IoDisabled
                    case PiAged => IoAged
                    case PiUpdate => IoMine
                    case PiSuperior => IoReceived
                    case _ => p.infoIs)
    && q.portTimes.hello == (if x == PiUpdate then p.designatedTimes.hello else p.portTimes.hello)
    && (x == PiSuperior ==>
          && q.portPriority == p.msgPriority && q.portTimes == p.msgTimes.(hello := p.portTimes.hello)
          && q.rcvdInfoWhile == InfoLifetime(r, k))
    && (x != PiSuperior && x != PiUpdate ==> q.portPriority == p.portPriority && q.portTimes == p.portTimes)
    && (x != PiSuperior && x != PiRepeated && x != PiDisabled ==> q.rcvdInfoWhile == p.rcvdInfoWhile)
  }

  lemma EnterControls(c: Column, k: nat, x: PismState, cfg: Config)
    requires k < |c.ptps|
    ensures Framed(c, Enter(c, k, x, cfg), k)
    ensures Controlled(c, Enter(c, k, x, cfg), k, x)
  {
    PutFramed(c, k, c.ptps[k].(pism := x), c.prt);
    if x == PiSuperior {
      SuperiorControls(c, k, cfg);
    } else if x == PiRepeated {
      RepeatedControls(c, k, cfg);
    } else if x == PiInferior {
      InferiorControls(c, k, cfg);
    } else if x == PiNotDesignated {
      NotDesignatedControls(c, k, cfg);
    } else if x == PiReceive {
      ReceiveControls(c, k, cfg);
    }
  }

  lemma InferiorControls(c: Column, k: nat, cfg: Config)
    requires k < |c.ptps|
    ensures Framed(c, Enter(c, k, PiInferior, cfg), k)
    ensures Controlled(c, Enter(c, k, PiInferior, cfg), k, PiInferior)
  {
    var c1 := Mark(c, k, PiInferior);
    PutFramed(c, k, c.ptps[k].(pism := PiInferior), c.prt);
    RecordDisputeFramed(c1, k);
    FramesCompose(c, c1, RecordDispute(c1, k), k);
  }

  lemma NotDesignatedControls(c: Column, k: nat, cfg: Config)
    requires k < |c.ptps|
    ensures Framed(c, Enter(c, k, PiNotDesignated, cfg), k)
    ensures Controlled(c, Enter(c, k, PiNotDesignated, cfg), k, PiNotDesignated)
  {
    var c1 := Mark(c, k, PiNotDesignated);
    PutFramed(c, k, c.ptps[k].(pism := PiNotDesignated), c.prt);
    RecordAgreementFramed(c1, k, cfg);
    var c2 := RecordAgreement(c1, k, cfg);
    SetTcFlagsFramed(c2, k);
    FramesCompose(c, c1, c2, k);
    FramesCompose(c, c2, SetTcFlags(c2, k), k);
  }

  lemma SuperiorControls(c: Column, k: nat, cfg: Config)
    requires k < |c.ptps|
    ensures Framed(c, Enter(c, k, PiSuperior, cfg), k)
    ensures Controlled(c, Enter(c, k, PiSuperior, cfg), k, PiSuperior)
  {
    var c1 := Mark(c, k, PiSuperior);
    PutFramed(c, k, c.ptps[k].(pism := PiSuperior), c.prt);
    NoteSuperiorFramed(c1, k, cfg);
    var c2 := NoteSuperior(c1, k, cfg);
    FramesCompose(c, c1, c2, k);
    RecordSuperiorFramed(c2, k);
    FramesCompose(c, c2, RecordSuperior(c2, k), k);
  }

  lemma ReceiveControls(c: Column, k: nat, cfg: Config)
    requires k < |c.ptps|
    ensures Framed(c, Enter(c, k, PiReceive, cfg), k)
    ensures Controlled(c, Enter(c, k, PiReceive, cfg), k, PiReceive)
  {
    var c1 := Mark(c, k, PiReceive);
    PutFramed(c, k, c.ptps[k].(pism := PiReceive), c.prt);
    RcvInfoIsFramed(c1, k, cfg);
    RcvInfoControls(c1, k, cfg);
    var c2 := RcvInfo(c1, k, cfg);
    RecordMasteredFramed(c2, k);
    FramesCompose(c, c1, c2, k);
    FramesCompose(c, c2, RecordMastered(c2, k), k);
  }

  lemma RepeatedControls(c: Column, k: nat, cfg: Config)
    requires k < |c.ptps|
    ensures var r := Enter(c, k, PiRepeated, cfg);
            var p, q := c.ptps[k], r.ptps[k];
            && Framed(c, r, k) && q.pism == PiRepeated && q.rcvdMsg.Off? && q.updtInfo == p.updtInfo
            && q.selected == p.selected && q.infoIs == p.infoIs
            && q.portTimes == p.portTimes && q.portPriority == p.portPriority
  {
    var c1 := Mark(c, k, PiRepeated).(prt := c.prt.(infoInternal := c.prt.rcvdInternal));
    assert Framed(c, c1, k);
    var c4 := RepeatedRecords(c1, k, cfg);
    FramesCompose(c, c1, c4, k);
    RenewalFramed(c4, k, InfoLifetime(c4, k));
    FramesCompose(c, c4, Put(c4, k, c4.ptps[k].(rcvdInfoWhile := InfoLifetime(c4, k), rcvdMsg := Off)), k);
  }

  lemma RenewalFramed(c: Column, k: nat, n: nat)
    requires k < |c.ptps|
    ensures Framed(c, Put(c, k, c.ptps[k].(rcvdInfoWhile := n, rcvdMsg := Off)), k)
  {
  }

  /** The three recordings of REPEATED_DESIGNATED. */
  lemma RepeatedRecords(c1: Column, k: nat, cfg: Config) returns (c4: Column)
    requires k < |c1.ptps|
    ensures c4 == RecordAgreement(SetTcFlags(RecordProposal(c1, k), k), k, cfg) && |c4.ptps| == |c1.ptps|
    ensures var p, q := c1.ptps[k], c4.ptps[k];
            && Framed(c1, c4, k) && q.pism == p.pism && q.rcvdMsg == p.rcvdMsg && q.updtInfo == p.updtInfo
            && q.selected == p.selected && q.infoIs == p.infoIs
            && q.portTimes == p.portTimes && q.portPriority == p.portPriority
  {
    RecordProposalFramed(c1, k);
    var c2 := RecordProposal(c1, k);
    SetTcFlagsFramed(c2, k);
    var c3 := SetTcFlags(c2, k);
    RecordAgreementFramed(c3, k, cfg);
    c4 := RecordAgreement(c3, k, cfg);
    FramesCompose(c1, c2, c3, k);
    FramesCompose(c1, c3, c4, k);
  }

  function Measure(c: Column, k: nat): nat
    requires k < |c.ptps|
  {
    var p := c.ptps[k];
    var work := (if p.rcvdMsg.On? && p.pism != PiReceive then 10 else 0) + (if p.updtInfo.On? then 4 else 0)
                + (if p.infoIs == IoReceived then 2 else 0)
                + match p.pism {
                    case PiCurrent => 0
                    case PiReceive => 9
                    case PiDisabled => 2
                    case _ => 1
                  };
    if c.prt.portEnabled.On? then work
    else if p.infoIs != IoDisabled then 2
    else if p.pism == PiDisabled then if p.rcvdMsg.On? then 1 else 0
    else work + 3
  }

  lemma ControlledDecreases(c: Column, r: Column, k: nat)
    requires k < |c.ptps| == |r.ptps| && Target(c, k).Some? && Controlled(c, r, k, Target(c, k).value)
    requires r.prt.portEnabled == c.prt.portEnabled
    ensures Measure(r, k) < Measure(c, k)
  {
  }

  /** Every transition uses up work, whatever message has been received. */
  lemma StepDecreases(c: Column, k: nat, cfg: Config)
    requires k < |c.ptps| && Target(c, k).Some?
    ensures Measure(Enter(c, k, Target(c, k).value, cfg), k) < Measure(c, k)
  {
    EnterControls(c, k, Target(c, k).value, cfg);
    ControlledDecreases(c, Enter(c, k, Target(c, k).value, cfg), k);
  }

  /** The machine run to rest on tree `k` of the port. */
  function Rest(c: Column, k: nat, cfg: Config): (r: Column)
    requires k < |c.ptps|
    ensures |r.ptps| == |c.ptps|
    decreases Measure(c, k)
  {
    var t := Target(c, k);
    if t.None? then c
    else
      StepDecreases(c, k, cfg);
      Rest(Enter(c, k, t.value, cfg), k, cfg)
  }
}
