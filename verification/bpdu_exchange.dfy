/** From the transmitting port to the receiving port: building an MST BPDU in a buffer, and what a bridge of the same
    region gets out of it. */
module BpduExchange {
  import opened Types
  import opened BpduCodec
  import PI = PortInfo
  import PM = PortMachines
  import TX = Transmit

  // ---- Transmission ----

  method Put(buf: array<u8>, at: nat, s: seq<u8>)
    requires at + |s| <= buf.Length
    modifies buf
    ensures buf[..at + |s|] == old(buf[..at]) + s
  {
    for k := 0 to |s|
      invariant buf[..at] == old(buf[..at]) && buf[at..at + k] == s[..k]
    {
      buf[at + k] := s[k];
    }
    assert s[..|s|] == s;
  }

  /** The size of the frame, and the frame. */
  function FrameOf(c: PI.Column, cfg: Config): seq<u8>
    requires 0 < |c.ptps| <= MAX_STANDARD_MSTIS + 1 && |cfg.configId| == CONFIG_ID_SIZE
  {
    if !TX.MayTransmit(c) then []
    else if cfg.version == ProtoMSTP then EncodeMst(TX.RstpMessage(c, cfg), |c.ptps| - 1)
    else EncodeRst(TX.RstpMessage(c, cfg))
  }

  /** `txMstp`: fills the buffer and returns the number of octets to send. */
  method TxMstp(c: PI.Column, cfg: Config, buf: array<u8>) returns (size: nat)
    requires 0 < |c.ptps| <= MAX_STANDARD_MSTIS + 1 && |cfg.configId| == CONFIG_ID_SIZE && buf.Length == BUFFER_SIZE
    modifies buf
    ensures size == |FrameOf(c, cfg)| && buf[..size] == FrameOf(c, cfg)
  {
    if !TX.MayTransmit(c) { return 0; }
    var m := TX.RstpMessage(c, cfg);
    if cfg.version != ProtoMSTP {
      PutCommon(buf, Header(2, 2), m);
      return RST_SIZE;
    }
    var n := |c.ptps| - 1;
    PutFixed(buf, m, n);
    size := PutMstis(buf, c, m.mstis);
    FrameIsSplit(m, n);
  }

  /** The part that RST and MST BPDUs have in common. */
  method PutCommon(buf: array<u8>, header: seq<u8>, m: Bpdu)
    requires buf.Length == BUFFER_SIZE && |header| == TCN_SIZE
    modifies buf
    ensures buf[..RST_SIZE] == header + (EncodeCommon(m) + [0])
  {
    Put(buf, 0, header);
    Put(buf, TCN_SIZE, EncodeCommon(m));
    Put(buf, CONFIG_SIZE, [0]);
  }

  /** An MST BPDU without MSTI messages; the length field counts those that will follow. */
  method PutFixed(buf: array<u8>, m: Bpdu, n: nat)
    requires buf.Length == BUFFER_SIZE && |m.configId| == CONFIG_ID_SIZE && n <= MAX_STANDARD_MSTIS
    modifies buf
    ensures buf[..MST_SIZE] == Fixed(m, n)
  {
    PutCommon(buf, Header(3, 2), m);
    Put(buf, RST_SIZE, Be2(VERSION3_LENGTH + n * MSTI_SIZE));
    Put(buf, RST_SIZE + 2, EncodeMstPart(m));
  }

  function Fixed(m: Bpdu, n: nat): seq<u8>
    requires |m.configId| == CONFIG_ID_SIZE && n <= MAX_STANDARD_MSTIS
  {
    Header(3, 2) + (EncodeCommon(m) + [0]) + Be2(VERSION3_LENGTH + n * MSTI_SIZE) + EncodeMstPart(m)
  }

  lemma Regroup(h: seq<u8>, c: seq<u8>, z: seq<u8>, l: seq<u8>, p: seq<u8>, t: seq<u8>)
    ensures h + (c + (z + (l + (p + t)))) == h + (c + z) + l + p + t
  {
  }

  lemma FrameIsSplit(m: Bpdu, n: nat)
    requires |m.configId| == CONFIG_ID_SIZE && n <= MAX_STANDARD_MSTIS
    ensures EncodeMst(m, n) == Fixed(m, n) + EncodeMstis(m.mstis, n)
  {
    Regroup(Header(3, 2), EncodeCommon(m), [0], Be2(VERSION3_LENGTH + n * MSTI_SIZE), EncodeMstPart(m),
            EncodeMstis(m.mstis, n));
  }

  /** The MSTI messages, one for each further tree of the port, in list order. */
  method PutMstis(buf: array<u8>, c: PI.Column, ghost t: MstiTable) returns (size: nat)
    requires 0 < |c.ptps| <= MAX_STANDARD_MSTIS + 1 && buf.Length == BUFFER_SIZE && t == TX.MstiTableOf(c.ptps)
    modifies buf
    ensures size == MST_SIZE + (|c.ptps| - 1) * MSTI_SIZE
    ensures buf[..size] == old(buf[..MST_SIZE]) + EncodeMstis(t, |c.ptps| - 1)
  {
    size := MST_SIZE;
    ghost var fixed := buf[..MST_SIZE];
    for j := 1 to |c.ptps|
      invariant size == MST_SIZE + (j - 1) * MSTI_SIZE
      invariant buf[..size] == fixed + EncodeMstis(t, j - 1)
    {
      MstisGrow(c.ptps, j, fixed);
      PutMsti(buf, size, c.ptps[j]);
      size := size + MSTI_SIZE;
    }
  }

  method PutMsti(buf: array<u8>, at: nat, p: Ptp)
    requires at + MSTI_SIZE <= buf.Length
    modifies buf
    ensures buf[..at + MSTI_SIZE] == old(buf[..at]) + EncodeMsti(TX.MstiMessage(p))
  {
    var octets := EncodeMsti(TX.MstiMessage(p));
    Put(buf, at, octets);
  }

  lemma MstisGrow(ptps: seq<Ptp>, j: nat, fixed: seq<u8>)
    requires 1 <= j < |ptps| <= MAX_STANDARD_MSTIS + 1
    ensures var t := TX.MstiTableOf(ptps);
            fixed + EncodeMstis(t, j) == fixed + EncodeMstis(t, j - 1) + EncodeMsti(TX.MstiMessage(ptps[j]))
  {
    var t := TX.MstiTableOf(ptps);
    assert t[j - 1] == TX.MstiMessage(ptps[j]);
    Regroup2(fixed, EncodeMstis(t, j - 1), EncodeMsti(t[j - 1]));
  }

  lemma Regroup2(a: seq<u8>, b: seq<u8>, c: seq<u8>)
    ensures a + (b + c) == a + b + c
  {
  }

  // ---- Reception ----

  /** The trees of the sender: distinct, each with its number in its regional root and designated bridge identifiers,
      and with one MAC address and port number for all. */
  ghost predicate SenderOk(c: PI.Column) {
    && 0 < |c.ptps| <= MAX_STANDARD_MSTIS + 1
    && (forall s :: 1 <= s < |c.ptps| ==> TreeOk(c, s))
    && (forall s, u :: 1 <= s < u < |c.ptps| ==> c.ptps[s].mstid != c.ptps[u].mstid)
  }

  predicate TreeOk(c: PI.Column, s: nat)
    requires 0 < s < |c.ptps|
  {
    var v, cist, id := c.ptps[s].designatedPriority, c.ptps[0].designatedPriority, c.ptps[s].mstid;
    && 1 <= id <= MAX_MSTID && v.rrootId.priority % 0x1000 == id && v.desBridge.priority % 0x1000 == id
    && v.desBridge.mac == cist.desBridge.mac && v.desPort % 0x1000 == cist.desPort % 0x1000
  }

  /** What the encoded role tells the receiver; the Master role tells it nothing. */
  function RoleHeard(r: Role): Option<bool> {
    match r
    case RoleDesignated => Some(true)
    case RoleMaster => None
    case RoleRoot | RoleAlternate | RoleBackup | RoleDisabled => Some(false)
  }

  /** The receiver's port holds the message of sender `c`. */
  ghost predicate Arrived(d: PI.Column, c: PI.Column, cfg: Config) {
    && SenderOk(c) && cfg.version == ProtoMSTP
    && SameMst(d.prt.bpdu, TX.RstpMessage(c, cfg), |c.ptps| - 1) && d.prt.numMstis == |c.ptps| - 1
  }

  /** Whatever was in the receive buffer before, the frame of the sender arrives as its message. */
  lemma FrameArrives(c: PI.Column, cfg: Config, b: Buffer, d: PI.Column)
    requires SenderOk(c) && |cfg.configId| == CONFIG_ID_SIZE && cfg.version == ProtoMSTP && TX.MayTransmit(c)
    requires Holds(b, FrameOf(c, cfg))
    requires var r := Receive(b, |FrameOf(c, cfg)|, d.prt.numMstis); r.Some? ==> d.prt.bpdu == r.value.0
    ensures var r := Receive(b, |FrameOf(c, cfg)|, d.prt.numMstis);
            r.Some? && Arrived(d.(prt := d.prt.(numMstis := r.value.1)), c, cfg)
  {
    MstIsReceived(b, TX.RstpMessage(c, cfg), |c.ptps| - 1, d.prt.numMstis);
  }

  lemma NibbleRoundTrip(x: u16, id: u16)
    requires x % 0x1000 == id % 0x1000
    ensures PI.SetPriority(x / 0x1000 * 16, id) == x
  {
  }

  /** The search finds the message of the tree with the same number. */
  lemma FindsOwnMessage(t: MstiTable, c: PI.Column, s: nat)
    requires SenderOk(c) && 1 <= s < |c.ptps|
    requires forall j :: 0 <= j < |c.ptps| - 1 ==> t[j] == TX.MstiMessage(c.ptps[j + 1])
    ensures PM.FindMsti(t, |c.ptps| - 1, c.ptps[s].mstid, 0) == Some(s - 1)
  {
    var r := PM.FindMsti(t, |c.ptps| - 1, c.ptps[s].mstid, 0);
    NumberOfMessage(t, c, s);
    if r.Some? {
      NumberOfMessage(t, c, r.value as int + 1);
    }
  }

  lemma NumberOfMessage(t: MstiTable, c: PI.Column, s: nat)
    requires SenderOk(c) && 1 <= s < |c.ptps|
    requires forall j :: 0 <= j < |c.ptps| - 1 ==> t[j] == TX.MstiMessage(c.ptps[j + 1])
    ensures t[s - 1].rrootId.priority % 0x1000 == c.ptps[s].mstid
  {
    assert TreeOk(c, s) && t[s - 1] == TX.MstiMessage(c.ptps[s]);
  }

  lemma FindsNoMessage(t: MstiTable, c: PI.Column, id: u16)
    requires SenderOk(c) && forall s :: 1 <= s < |c.ptps| ==> c.ptps[s].mstid != id
    requires forall j :: 0 <= j < |c.ptps| - 1 ==> t[j] == TX.MstiMessage(c.ptps[j + 1])
    ensures PM.FindMsti(t, |c.ptps| - 1, id, 0) == None
  {
    var r := PM.FindMsti(t, |c.ptps| - 1, id, 0);
    if r.Some? {
      NumberOfMessage(t, c, r.value as int + 1);
    }
  }

  /** The decoded MSTI vector is the one that was sent. */
  lemma MstiVecRoundTrip(b: Bpdu, c: PI.Column, s: nat, was: Vec)
    requires SenderOk(c) && 1 <= s < |c.ptps|
    requires b.bridgeId == c.ptps[0].designatedPriority.desBridge && b.portId == c.ptps[0].designatedPriority.desPort
    ensures var v := c.ptps[s].designatedPriority;
            PI.MstiVec(b, TX.MstiMessage(c.ptps[s]), c.ptps[s].mstid, was)
              == v.(rootId := was.rootId, extCost := was.extCost)
  {
    assert TreeOk(c, s);
    var v := c.ptps[s].designatedPriority;
    NibbleRoundTrip(v.desBridge.priority, c.ptps[s].mstid);
    NibbleRoundTrip(v.desPort, b.portId);
  }

  /** The messages in the table are those of the sender's trees. */
  lemma ArrivedMessages(d: PI.Column, c: PI.Column, cfg: Config)
    requires Arrived(d, c, cfg)
    ensures forall j :: 0 <= j < |c.ptps| - 1 ==> d.prt.bpdu.mstis[j] == TX.MstiMessage(c.ptps[j + 1])
  {
  }

  /** The CIST part: a bridge of the same region takes the message as internal and decodes the designated vector, the
      designated times with the port's Hello Time, and the role. */
  lemma CistIsDecoded(d: PI.Column, c: PI.Column, cfg: Config, cfg2: Config)
    requires PI.ColumnOk(d) && Arrived(d, c, cfg) && cfg2.configId == cfg.configId
             && PM.PrsmTarget(d, cfg2) == Some(RxReceive)
    ensures var e := PM.PrsmRun(d, cfg2);
            && e.prt.rcvdInternal.On? && e.ptps[0].rcvdMsg.On?
            && var p, q := c.ptps[0], PI.RcvInfo(e, 0, cfg2).ptps[0];
               && PI.ConveysDesignated(e.prt.bpdu, e.prt.bpdu.mstis[0], true) == RoleHeard(p.role)
               && (p.role != RoleMaster ==>
                     q.msgPriority == p.designatedPriority
                       && q.msgTimes == p.designatedTimes.(hello := p.portTimes.hello))
  {
    var e := PM.PrsmRun(d, cfg2);
    assert e.prt.bpdu == d.prt.bpdu && e.ptps[0] == d.ptps[0].(rcvdMsg := On);
    DecodesCist(e, c.ptps[0], cfg2);
  }

  lemma DecodesCist(e: PI.Column, p: Ptp, cfg2: Config)
    requires |e.ptps| > 0 && e.ptps[0].mstid == 0
    requires var b, v, t := e.prt.bpdu, p.designatedPriority, p.designatedTimes;
             && b.version == ProtoMSTP && b.bpduType == TypeRst && b.flags.role == TX.EncodeRole(p.role)
             && b.rootId == v.rootId && b.extCost == v.extCost && b.rrootId == v.rrootId && b.portId == v.desPort
             && b.intCost == v.intCost && b.bridgeId == v.desBridge && b.hops == t.hops
             && b.messageAge == TX.Whole(t.messageAge) && b.maxAge == TX.Whole(t.maxAge)
             && b.helloTime == TX.Whole(p.portTimes.hello) && b.forwardDelay == TX.Whole(t.forwardDelay)
    ensures var q := PI.RcvInfo(e, 0, cfg2).ptps[0];
            && PI.ConveysDesignated(e.prt.bpdu, e.prt.bpdu.mstis[0], true) == RoleHeard(p.role)
            && (p.role != RoleMaster ==>
                  q.msgPriority == p.designatedPriority && q.msgTimes == p.designatedTimes.(hello := p.portTimes.hello))
  {
  }

  /** The MSTI part: each tree that both bridges have gets its own message and decodes the sender's vector, remaining
      hops and role. A Master Port's message is not decoded. */
  lemma MstiIsDecoded(d: PI.Column, c: PI.Column, cfg: Config, cfg2: Config, k: nat, s: nat)
    requires PI.ColumnOk(d) && Arrived(d, c, cfg) && cfg2.configId == cfg.configId
             && PM.PrsmTarget(d, cfg2) == Some(RxReceive)
    requires 1 <= k < |d.ptps| && 1 <= s < |c.ptps| && d.ptps[k].mstid == c.ptps[s].mstid
    ensures var e := PM.PrsmRun(d, cfg2);
            && e.ptps[k].rcvdMsg.On?
            && var p, was, q := c.ptps[s], e.ptps[k], PI.RcvInfo(e, k, cfg2).ptps[k];
               && PI.ConveysDesignated(e.prt.bpdu, e.prt.bpdu.mstis[was.rcvdMsti], false) == RoleHeard(p.role)
               && (p.role == RoleMaster ==> q == was.(rcvdInfo := OtherInfo))
               && (p.role != RoleMaster ==>
                     && q.msgPriority == p.designatedPriority.(rootId := was.msgPriority.rootId,
                                                               extCost := was.msgPriority.extCost)
                     && q.msgTimes == was.msgTimes.(hops := p.designatedTimes.hops))
  {
    ArrivedMessages(d, c, cfg);
    DeliversOwnMessage(d, c, cfg2, k, s);
    DecodesMessage(PM.PrsmRun(d, cfg2), c, cfg2, k, s);
  }

  lemma DeliversOwnMessage(d: PI.Column, c: PI.Column, cfg2: Config, k: nat, s: nat)
    requires SenderOk(c) && PM.FromSameRegion(d.prt, cfg2) && PM.PrsmTarget(d, cfg2) == Some(RxReceive)
    requires 1 <= k < |d.ptps| && 1 <= s < |c.ptps| && d.ptps[k].mstid == c.ptps[s].mstid
             && d.prt.numMstis == |c.ptps| - 1
    requires forall j :: 0 <= j < |c.ptps| - 1 ==> d.prt.bpdu.mstis[j] == TX.MstiMessage(c.ptps[j + 1])
    ensures var e := PM.PrsmRun(d, cfg2);
            e.prt.bpdu == d.prt.bpdu && e.ptps[k] == d.ptps[k].(rcvdMsg := On, rcvdMsti := s - 1)
  {
    FindsOwnMessage(d.prt.bpdu.mstis, c, s);
    assert TreeOk(c, s);
  }

  lemma DecodesMessage(e: PI.Column, c: PI.Column, cfg2: Config, k: nat, s: nat)
    requires SenderOk(c) && 1 <= k < |e.ptps| && 1 <= s < |c.ptps| && e.ptps[k].mstid == c.ptps[s].mstid
    requires e.ptps[k].rcvdMsti == s - 1 && e.prt.bpdu.mstis[s - 1] == TX.MstiMessage(c.ptps[s])
    requires e.prt.bpdu.version == ProtoMSTP && e.prt.bpdu.bpduType == TypeRst
    requires e.prt.bpdu.bridgeId == c.ptps[0].designatedPriority.desBridge
             && e.prt.bpdu.portId == c.ptps[0].designatedPriority.desPort
    ensures var p, was, q := c.ptps[s], e.ptps[k], PI.RcvInfo(e, k, cfg2).ptps[k];
            && PI.ConveysDesignated(e.prt.bpdu, e.prt.bpdu.mstis[was.rcvdMsti], false) == RoleHeard(p.role)
            && (p.role == RoleMaster ==> q == was.(rcvdInfo := OtherInfo))
            && (p.role != RoleMaster ==>
                  && q.msgPriority == p.designatedPriority.(rootId := was.msgPriority.rootId,
                                                            extCost := was.msgPriority.extCost)
                  && q.msgTimes == was.msgTimes.(hops := p.designatedTimes.hops))
  {
    assert TreeOk(c, s);
    MstiVecRoundTrip(e.prt.bpdu, c, s, e.ptps[k].msgPriority);
  }

  /** A tree that the sender does not have gets nothing. */
  lemma UnknownTreeHearsNothing(d: PI.Column, c: PI.Column, cfg: Config, cfg2: Config, k: nat)
    requires PI.ColumnOk(d) && Arrived(d, c, cfg) && PM.PrsmTarget(d, cfg2) == Some(RxReceive)
    requires 1 <= k < |d.ptps| && forall s :: 1 <= s < |c.ptps| ==> c.ptps[s].mstid != d.ptps[k].mstid
    ensures PM.PrsmRun(d, cfg2).ptps[k] == d.ptps[k]
  {
    ArrivedMessages(d, c, cfg);
    FindsNoMessage(d.prt.bpdu.mstis, c, d.ptps[k].mstid);
  }
}
