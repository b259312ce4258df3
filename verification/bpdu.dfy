/** The octets of BPDUs: what `txMstp`, `txConfig` and `txTcn` put on the wire, the validation of section 14.4 of
    IEEE 802.1Q-2005, and what the receiving bridge reads. */
module BpduCodec {
  import opened Types

  const TCN_SIZE := 4
  const CONFIG_SIZE := 35
  const RST_SIZE := 36
  const MST_SIZE := 102       // without MSTI messages
  const VERSION3_LENGTH := 64 // without MSTI messages
  const MSTI_SIZE := 16
  const CONFIG_ID_SIZE := 51
  const BUFFER_SIZE := MST_SIZE + MAX_STANDARD_MSTIS * MSTI_SIZE

  // ---- Numbers, most significant octet first ----

  function Be2(x: u16): (r: seq<u8>)
    ensures |r| == 2
  {
    [x / 0x100, x % 0x100]
  }

  function Be4(x: u32): (r: seq<u8>)
    ensures |r| == 4
  {
    Be2(x / 0x1_0000) + Be2(x % 0x1_0000)
  }

  function Be6(x: u48): (r: seq<u8>)
    ensures |r| == 6
  {
    Be2(x / 0x1_0000_0000) + Be4(x % 0x1_0000_0000)
  }

  function EncodeId(id: BridgeId): (r: seq<u8>)
    ensures |r| == 8
  {
    Be2(id.priority) + Be6(id.mac)
  }

  function Num2(s: seq<u8>): u16
    requires |s| == 2
  {
    (s[0] as int) * 0x100 + (s[1] as int)
  }

  function Num4(s: seq<u8>): u32
    requires |s| == 4
  {
    (Num2(s[..2]) as int) * 0x1_0000 + (Num2(s[2..]) as int)
  }

  function Num6(s: seq<u8>): u48
    requires |s| == 6
  {
    (Num2(s[..2]) as int) * 0x1_0000_0000 + (Num4(s[2..]) as int)
  }

  function DecodeId(s: seq<u8>): BridgeId
    requires |s| == 8
  {
    BridgeId(Num2(s[..2]), Num6(s[2..]))
  }

  lemma Split(a: seq<u8>, b: seq<u8>)
    ensures (a + b)[..|a|] == a && (a + b)[|a|..] == b
  {
  }

  lemma Num2Be(x: u16)
    ensures Num2(Be2(x)) == x
  {
  }

  lemma Num4Be(x: u32)
    ensures Num4(Be4(x)) == x
  {
    Split(Be2(x / 0x1_0000), Be2(x % 0x1_0000));
    Num2Be(x / 0x1_0000);
    Num2Be(x % 0x1_0000);
  }

  lemma Num6Be(x: u48)
    ensures Num6(Be6(x)) == x
  {
    Split(Be2(x / 0x1_0000_0000), Be4(x % 0x1_0000_0000));
    Num2Be(x / 0x1_0000_0000);
    Num4Be(x % 0x1_0000_0000);
  }

  lemma IdRoundTrip(id: BridgeId)
    ensures DecodeId(EncodeId(id)) == id
  {
    Split(Be2(id.priority), Be6(id.mac));
    Num2Be(id.priority);
    Num6Be(id.mac);
  }

  // ---- Comparing octet strings, as the `cmp` macro does, compares the numbers ----

  /** `memcmp(a, b) < 0`. */
  predicate MemLess(a: seq<u8>, b: seq<u8>)
    requires |a| == |b|
  {
    a != [] && (a[0] < b[0] || (a[0] == b[0] && MemLess(a[1..], b[1..])))
  }

  lemma {:induction false} MemLessSplit(a: seq<u8>, b: seq<u8>, c: seq<u8>, d: seq<u8>)
    requires |a| == |c| && |b| == |d|
    ensures MemLess(a + b, c + d) <==> MemLess(a, c) || (a == c && MemLess(b, d))
  {
    if a == [] {
      assert a + b == b && c + d == d;
    } else {
      MemLessSplit(a[1..], b, c[1..], d);
      assert (a + b)[1..] == a[1..] + b && (c + d)[1..] == c[1..] + d;
      assert a == c <==> a[0] == c[0] && a[1..] == c[1..] by {
        assert a == [a[0]] + a[1..] && c == [c[0]] + c[1..];
      }
    }
  }

  lemma MemLess2(x: u16, y: u16)
    ensures MemLess(Be2(x), Be2(y)) <==> x < y
    ensures Be2(x) == Be2(y) <==> x == y
  {
    Num2Be(x);
    Num2Be(y);
    assert MemLess(Be2(x)[1..], Be2(y)[1..]) <==> x % 0x100 < y % 0x100;
  }

  lemma MemLess4(x: u32, y: u32)
    ensures MemLess(Be4(x), Be4(y)) <==> x < y
    ensures Be4(x) == Be4(y) <==> x == y
  {
    MemLessSplit(Be2(x / 0x1_0000), Be2(x % 0x1_0000), Be2(y / 0x1_0000), Be2(y % 0x1_0000));
    MemLess2(x / 0x1_0000, y / 0x1_0000);
    MemLess2(x % 0x1_0000, y % 0x1_0000);
    Num4Be(x);
    Num4Be(y);
  }

  lemma MemLess6(x: u48, y: u48)
    ensures MemLess(Be6(x), Be6(y)) <==> x < y
  {
    var h := 0x1_0000_0000;
    MemLessSplit(Be2(x / h), Be4(x % h), Be2(y / h), Be4(y % h));
    MemLess2(x / h, y / h);
    MemLess4(x % h, y % h);
  }

  /** Comparing identifiers as octet strings is comparing the priorities and then the addresses. */
  lemma MemLessId(x: BridgeId, y: BridgeId)
    ensures MemLess(EncodeId(x), EncodeId(y)) <==>
            x.priority < y.priority || (x.priority == y.priority && x.mac < y.mac)
    ensures EncodeId(x) == EncodeId(y) <==> x == y
  {
    MemLessSplit(Be2(x.priority), Be6(x.mac), Be2(y.priority), Be6(y.mac));
    MemLess2(x.priority, y.priority);
    MemLess6(x.mac, y.mac);
    IdRoundTrip(x);
    IdRoundTrip(y);
  }

  // ---- Flags ----

  function BitOf(b: bool, weight: u8): u8 {
    if b then weight else 0
  }

  function RoleBits(r: EncodedRole): (n: u8)
    ensures n < 4
  {
    match r
    case EncMaster => 0
    case EncAlternateBackup => 1
    case EncRoot => 2
    case EncDesignated => 3
  }

  function RoleOfBits(n: u8): EncodedRole {
    match n
    case 0 => EncMaster
    case 1 => EncAlternateBackup
    case 2 => EncRoot
    case _ => EncDesignated
  }

  function LowFlags(f: FlagOctet): (n: nat)
    ensures n < 16
  {
    BitOf(f.tc, 1) + BitOf(f.proposal, 2) + RoleBits(f.role) * 4
  }

  function HighFlags(f: FlagOctet): (n: nat)
    ensures n < 16
  {
    BitOf(f.learning, 1) + BitOf(f.forwarding, 2) + BitOf(f.agreement, 4) + BitOf(f.tcAck, 8)
  }

  function EncodeFlags(f: FlagOctet): u8 {
    LowFlags(f) + 16 * HighFlags(f)
  }

  predicate Bit(n: nat, weight: nat)
    requires weight > 0
  {
    n / weight % 2 == 1
  }

  function DecodeFlags(n: u8): FlagOctet {
    var low, high := n % 16, n / 16;
    FlagOctet(Bit(low, 1), Bit(low, 2), RoleOfBits(low / 4), Bit(high, 1), Bit(high, 2), Bit(high, 4), Bit(high, 8))
  }

  lemma FlagsRoundTrip(f: FlagOctet)
    ensures DecodeFlags(EncodeFlags(f)) == f
  {
    var low, high := LowFlags(f), HighFlags(f);
    assert EncodeFlags(f) % 16 == low && EncodeFlags(f) / 16 == high;
    LowRoundTrip(f);
    HighRoundTrip(f);
  }

  lemma LowRoundTrip(f: FlagOctet)
    ensures var low := LowFlags(f); Bit(low, 1) == f.tc && Bit(low, 2) == f.proposal && RoleOfBits(low / 4) == f.role
  {
    var low, r := LowFlags(f), RoleBits(f.role);
    assert low / 4 == r && low % 4 == BitOf(f.tc, 1) + BitOf(f.proposal, 2);
  }

  lemma HighRoundTrip(f: FlagOctet)
    ensures var high := HighFlags(f);
            Bit(high, 1) == f.learning && Bit(high, 2) == f.forwarding && Bit(high, 4) == f.agreement
              && Bit(high, 8) == f.tcAck
  {
  }

  // ---- The parts of a BPDU ----

  function EncodeTime(t: WireTime): seq<u8> {
    [t.whole, t.frac]
  }

  /** The four time fields. */
  function EncodeTimes(m: Bpdu): (r: seq<u8>)
    ensures |r| == 8
  {
    EncodeTime(m.messageAge) + EncodeTime(m.maxAge) + EncodeTime(m.helloTime) + EncodeTime(m.forwardDelay)
  }

  /** From the flags to the forward delay. */
  function EncodeCommon(m: Bpdu): (r: seq<u8>)
    ensures |r| == CONFIG_SIZE - TCN_SIZE
  {
    [EncodeFlags(m.flags)] + (EncodeId(m.rootId)
                              + (Be4(m.extCost) + (EncodeId(m.rrootId) + (Be2(m.portId) + EncodeTimes(m)))))
  }

  function DecodeCommon(m: Bpdu, s: seq<u8>): Bpdu
    requires |s| == CONFIG_SIZE - TCN_SIZE
  {
    var s1 := s[1..];
    var s2 := s1[8..];
    var s3 := s2[4..];
    var s4 := s3[8..];
    var t := s4[2..];
    m.(flags := DecodeFlags(s[0]), rootId := DecodeId(s1[..8]), extCost := Num4(s2[..4]), rrootId := DecodeId(s3[..8]),
       portId := Num2(s4[..2]),
       messageAge := WireTime(t[0], t[1]), maxAge := WireTime(t[2], t[3]),
       helloTime := WireTime(t[4], t[5]), forwardDelay := WireTime(t[6], t[7]))
  }

  /** The fields that `EncodeCommon` transmits. */
  predicate SameCommon(m: Bpdu, n: Bpdu) {
    && m.flags == n.flags && m.rootId == n.rootId && m.extCost == n.extCost && m.rrootId == n.rrootId
       && m.portId == n.portId
    && m.messageAge == n.messageAge && m.maxAge == n.maxAge && m.helloTime == n.helloTime
       && m.forwardDelay == n.forwardDelay
  }

  lemma CommonRoundTrip(m: Bpdu, n: Bpdu)
    ensures SameCommon(DecodeCommon(n, EncodeCommon(m)), m)
  {
    var t5 := EncodeTimes(m);
    var t4 := Be2(m.portId) + t5;
    var t3 := EncodeId(m.rrootId) + t4;
    var t2 := Be4(m.extCost) + t3;
    var t1 := EncodeId(m.rootId) + t2;
    Split([EncodeFlags(m.flags)], t1);
    Split(EncodeId(m.rootId), t2);
    Split(Be4(m.extCost), t3);
    Split(EncodeId(m.rrootId), t4);
    Split(Be2(m.portId), t5);
    FlagsRoundTrip(m.flags);
    IdRoundTrip(m.rootId);
    IdRoundTrip(m.rrootId);
    Num4Be(m.extCost);
    Num2Be(m.portId);
  }

  /** The MST part: the configuration identifier and the CIST's internal information. */
  function EncodeMstPart(m: Bpdu): (r: seq<u8>)
    requires |m.configId| == CONFIG_ID_SIZE
    ensures |r| == VERSION3_LENGTH
  {
    m.configId + (Be4(m.intCost) + (EncodeId(m.bridgeId) + [m.hops]))
  }

  function DecodeMstPart(m: Bpdu, s: seq<u8>): Bpdu
    requires |s| == VERSION3_LENGTH
  {
    var s1 := s[CONFIG_ID_SIZE..];
    var s2 := s1[4..];
    m.(configId := s[..CONFIG_ID_SIZE], intCost := Num4(s1[..4]), bridgeId := DecodeId(s2[..8]), hops := s2[8])
  }

  predicate SameMstPart(m: Bpdu, n: Bpdu) {
    m.configId == n.configId && m.intCost == n.intCost && m.bridgeId == n.bridgeId && m.hops == n.hops
  }

  lemma MstPartRoundTrip(m: Bpdu, n: Bpdu)
    requires |m.configId| == CONFIG_ID_SIZE
    ensures SameMstPart(DecodeMstPart(n, EncodeMstPart(m)), m)
  {
    var t2 := EncodeId(m.bridgeId) + [m.hops];
    var t1 := Be4(m.intCost) + t2;
    Split(m.configId, t1);
    Split(Be4(m.intCost), t2);
    Split(EncodeId(m.bridgeId), [m.hops]);
    Num4Be(m.intCost);
    IdRoundTrip(m.bridgeId);
  }

  function EncodeMsti(m: MstiMsg): (r: seq<u8>)
    ensures |r| == MSTI_SIZE
  {
    [EncodeFlags(m.flags)] + (EncodeId(m.rrootId) + (Be4(m.intCost) + [m.bridgePriority, m.portPriority, m.hops]))
  }

  function DecodeMsti(s: seq<u8>): MstiMsg
    requires |s| == MSTI_SIZE
  {
    var s1 := s[1..];
    var s2 := s1[8..];
    var s3 := s2[4..];
    MstiMsg(DecodeFlags(s[0]), DecodeId(s1[..8]), Num4(s2[..4]), s3[0], s3[1], s3[2])
  }

  lemma MstiRoundTrip(m: MstiMsg)
    ensures DecodeMsti(EncodeMsti(m)) == m
  {
    var t3 := [m.bridgePriority, m.portPriority, m.hops];
    var t2 := Be4(m.intCost) + t3;
    var t1 := EncodeId(m.rrootId) + t2;
    Split([EncodeFlags(m.flags)], t1);
    Split(EncodeId(m.rrootId), t2);
    Split(Be4(m.intCost), t3);
    FlagsRoundTrip(m.flags);
    IdRoundTrip(m.rrootId);
    Num4Be(m.intCost);
  }

  /** The first `n` MSTI messages. */
  function EncodeMstis(t: MstiTable, n: nat): (r: seq<u8>)
    requires n <= MAX_STANDARD_MSTIS
    ensures |r| == n * MSTI_SIZE
  {
    if n == 0 then [] else EncodeMstis(t, n - 1) + EncodeMsti(t[n - 1])
  }

  lemma {:induction false} MstiAt(t: MstiTable, n: nat, j: nat)
    requires j < n <= MAX_STANDARD_MSTIS
    ensures EncodeMstis(t, n)[j * MSTI_SIZE..(j + 1) * MSTI_SIZE] == EncodeMsti(t[j])
    decreases n
  {
    var a, b := EncodeMstis(t, n - 1), EncodeMsti(t[n - 1]);
    if j < n - 1 {
      MstiAt(t, n - 1, j);
      assert (a + b)[j * MSTI_SIZE..(j + 1) * MSTI_SIZE] == a[j * MSTI_SIZE..(j + 1) * MSTI_SIZE];
    } else {
      Split(a, b);
    }
  }

  // ---- Whole BPDUs ----

  function Header(version: u8, bpduType: u8): (r: seq<u8>)
    ensures |r| == TCN_SIZE
  {
    [0, 0, version, bpduType]
  }

  function EncodeTcn(): seq<u8> {
    Header(0, 128)
  }

  function EncodeConfig(m: Bpdu): (r: seq<u8>)
    ensures |r| == CONFIG_SIZE
  {
    Header(0, 0) + EncodeCommon(m)
  }

  function EncodeRst(m: Bpdu): (r: seq<u8>)
    ensures |r| == RST_SIZE
  {
    Header(2, 2) + (EncodeCommon(m) + [0])
  }

  function EncodeMst(m: Bpdu, n: nat): (r: seq<u8>)
    requires |m.configId| == CONFIG_ID_SIZE && n <= MAX_STANDARD_MSTIS
    ensures |r| == MST_SIZE + n * MSTI_SIZE
  {
    Header(3, 2) + (EncodeCommon(m)
                    + ([0] + (Be2(VERSION3_LENGTH + n * MSTI_SIZE) + (EncodeMstPart(m) + EncodeMstis(m.mstis, n)))))
  }

  /** The receive buffer: the octets of the frame, followed by whatever the buffer held before. */
  type Buffer = s: seq<u8> | |s| == BUFFER_SIZE witness seq(BUFFER_SIZE, i => 0)

  /** How a BPDU is taken after validation; the number of MSTI messages is set for an MST BPDU only. */
  datatype Verdict = Verdict(version: Version, bpduType: BpduType, mstis: Option<nat>)

  function Validate(b: Buffer, size: nat): Option<Verdict> {
    if size < TCN_SIZE || Num2(b[..2]) != 0 then None
    else if b[3] == 128 then Some(Verdict(ProtoSTP, TypeTcn, None))
    else if b[3] == 0 then
      if size < CONFIG_SIZE then None else Some(Verdict(ProtoSTP, TypeConfig, None))
    else if b[3] == 2 then
      if b[2] == 2 then
        if size < RST_SIZE then None else Some(Verdict(ProtoRSTP, TypeRst, None))
      else if b[2] < 3 || size < CONFIG_SIZE then None
      else
        var rest := Num2(b[RST_SIZE..RST_SIZE + 2]) as int - VERSION3_LENGTH;
        if size < MST_SIZE || b[CONFIG_SIZE] != 0 || rest < 0 || rest > MAX_STANDARD_MSTIS * MSTI_SIZE
          || rest % MSTI_SIZE != 0
        then Some(Verdict(ProtoRSTP, TypeRst, None))
        else Some(Verdict(ProtoMSTP, TypeRst, Some(rest / MSTI_SIZE)))
    else None
  }

  function MstiIn(b: Buffer, j: MstiIndex): MstiMsg {
    DecodeMsti(b[MST_SIZE + j * MSTI_SIZE..MST_SIZE + (j + 1) * MSTI_SIZE])
  }

  function TableIn(b: Buffer): MstiTable {
    seq(MAX_STANDARD_MSTIS, j requires 0 <= j < MAX_STANDARD_MSTIS => MstiIn(b, j))
  }

  const BLANK := Bpdu(ProtoSTP, TypeConfig, NO_FLAGS, NO_ID, 0, NO_ID, 0, WireTime(0, 0), WireTime(0, 0),
                      WireTime(0, 0),
                      WireTime(0, 0), [], 0, NO_ID, 0, NoMstis())

  /** The buffer read as a BPDU of the given kind. */
  function Parse(b: Buffer, v: Verdict): Bpdu {
    var m := DecodeCommon(BLANK, b[TCN_SIZE..CONFIG_SIZE]);
    DecodeMstPart(m, b[RST_SIZE + 2..MST_SIZE]).(version := v.version, bpduType := v.bpduType, mstis := TableIn(b))
  }

  /** What `MSTP_IN_rx_bpdu` keeps of a frame that passes validation, and the number of MSTI messages. */
  function Receive(b: Buffer, size: nat, was: nat): Option<(Bpdu, nat)> {
    match Validate(b, size)
    case None => None
    case Some(v) => Some((Parse(b, v), if v.mstis.Some? then v.mstis.value else was))
  }

  // ---- Round trips ----

  /** The frame is at the start of the buffer. */
  predicate Holds(b: Buffer, frame: seq<u8>) {
    |frame| <= BUFFER_SIZE && b[..|frame|] == frame
  }

  lemma TcnIsReceived(b: Buffer, was: nat)
    requires Holds(b, EncodeTcn())
    ensures var r := Receive(b, TCN_SIZE, was);
            r.Some? && r.value.0.version == ProtoSTP && r.value.0.bpduType == TypeTcn
  {
    assert b[..4] == Header(0, 128);
    assert b[0] == b[..4][0] && b[1] == b[..4][1] && b[3] == b[..4][3];
  }

  /** The parts of a frame are where the receiver looks for them. */
  lemma HeaderAt(b: Buffer, h: seq<u8>, rest: seq<u8>)
    requires |h| == TCN_SIZE && Holds(b, h + rest)
    ensures b[0] == h[0] && b[1] == h[1] && b[2] == h[2] && b[3] == h[3]
    ensures b[TCN_SIZE..TCN_SIZE + |rest|] == rest
  {
    var f := h + rest;
    Split(h, rest);
    assert forall i :: 0 <= i < |f| ==> b[i] == b[..|f|][i];
    assert b[TCN_SIZE..TCN_SIZE + |rest|] == b[..|f|][TCN_SIZE..];
  }

  lemma PartAt(b: Buffer, at: nat, a: seq<u8>, rest: seq<u8>)
    requires at + |a| + |rest| <= BUFFER_SIZE && b[at..at + |a| + |rest|] == a + rest
    ensures b[at..at + |a|] == a && b[at + |a|..at + |a| + |rest|] == rest
  {
    var s := b[at..at + |a| + |rest|];
    Split(a, rest);
    assert b[at..at + |a|] == s[..|a|] && b[at + |a|..at + |a| + |rest|] == s[|a|..];
  }

  lemma ConfigIsReceived(b: Buffer, m: Bpdu, was: nat)
    requires Holds(b, EncodeConfig(m))
    ensures var r := Receive(b, CONFIG_SIZE, was);
            r.Some? && r.value.0.version == ProtoSTP && r.value.0.bpduType == TypeConfig && SameCommon(r.value.0, m)
  {
    HeaderAt(b, Header(0, 0), EncodeCommon(m));
    CommonRoundTrip(m, BLANK);
  }

  lemma RstIsReceived(b: Buffer, m: Bpdu, was: nat)
    requires Holds(b, EncodeRst(m))
    ensures var r := Receive(b, RST_SIZE, was);
            r.Some? && r.value.0.version == ProtoRSTP && r.value.0.bpduType == TypeRst && SameCommon(r.value.0, m)
  {
    HeaderAt(b, Header(2, 2), EncodeCommon(m) + [0]);
    PartAt(b, TCN_SIZE, EncodeCommon(m), [0]);
    CommonRoundTrip(m, BLANK);
  }

  /** The parts of an MST frame in the buffer. */
  lemma MstParts(b: Buffer, m: Bpdu, n: nat)
    requires |m.configId| == CONFIG_ID_SIZE && n <= MAX_STANDARD_MSTIS && Holds(b, EncodeMst(m, n))
    ensures b[0] == 0 && b[1] == 0 && b[2] == 3 && b[3] == 2 && b[CONFIG_SIZE] == 0
    ensures b[TCN_SIZE..CONFIG_SIZE] == EncodeCommon(m)
    ensures b[RST_SIZE..RST_SIZE + 2] == Be2(VERSION3_LENGTH + n * MSTI_SIZE)
    ensures b[RST_SIZE + 2..MST_SIZE] == EncodeMstPart(m)
    ensures b[MST_SIZE..MST_SIZE + n * MSTI_SIZE] == EncodeMstis(m.mstis, n)
  {
    var p5 := EncodeMstis(m.mstis, n);
    var p4 := EncodeMstPart(m) + p5;
    var p3 := Be2(VERSION3_LENGTH + n * MSTI_SIZE) + p4;
    var p2 := [0] + p3;
    HeaderAt(b, Header(3, 2), EncodeCommon(m) + p2);
    PartAt(b, TCN_SIZE, EncodeCommon(m), p2);
    PartAt(b, CONFIG_SIZE, [0], p3);
    assert b[CONFIG_SIZE..CONFIG_SIZE + 1][0] == 0;
    PartAt(b, RST_SIZE, Be2(VERSION3_LENGTH + n * MSTI_SIZE), p4);
    PartAt(b, RST_SIZE + 2, EncodeMstPart(m), p5);
  }

  /** Agreement in everything that an MST BPDU with `n` MSTI messages transmits. */
  ghost predicate SameMst(r: Bpdu, m: Bpdu, n: nat)
    requires n <= MAX_STANDARD_MSTIS
  {
    && r.version == ProtoMSTP && r.bpduType == TypeRst && SameCommon(r, m) && SameMstPart(r, m)
    && forall j :: 0 <= j < n ==> r.mstis[j] == m.mstis[j]
  }

  /** An MST BPDU passes validation with the right number of MSTI messages, and is read as it was written. */
  lemma MstIsReceived(b: Buffer, m: Bpdu, n: nat, was: nat)
    requires |m.configId| == CONFIG_ID_SIZE && n <= MAX_STANDARD_MSTIS && Holds(b, EncodeMst(m, n))
    ensures var r := Receive(b, MST_SIZE + n * MSTI_SIZE, was);
            r.Some? && r.value.1 == n && SameMst(r.value.0, m, n)
  {
    MstIsValidated(b, m, n);
    MstIsParsed(b, m, n, Verdict(ProtoMSTP, TypeRst, Some(n)));
  }

  lemma MstIsValidated(b: Buffer, m: Bpdu, n: nat)
    requires |m.configId| == CONFIG_ID_SIZE && n <= MAX_STANDARD_MSTIS && Holds(b, EncodeMst(m, n))
    ensures Validate(b, MST_SIZE + n * MSTI_SIZE) == Some(Verdict(ProtoMSTP, TypeRst, Some(n)))
  {
    MstParts(b, m, n);
    Num2Be(VERSION3_LENGTH + n * MSTI_SIZE);
  }

  lemma MstIsParsed(b: Buffer, m: Bpdu, n: nat, v: Verdict)
    requires |m.configId| == CONFIG_ID_SIZE && n <= MAX_STANDARD_MSTIS && Holds(b, EncodeMst(m, n))
    requires v.version == ProtoMSTP && v.bpduType == TypeRst
    ensures SameMst(Parse(b, v), m, n)
  {
    MstParts(b, m, n);
    ParseTakesParts(b, m, v);
    forall j | 0 <= j < n
      ensures Parse(b, v).mstis[j] == m.mstis[j]
    {
      TableEntry(b, m.mstis, n, j);
    }
  }

  lemma ParseTakesParts(b: Buffer, m: Bpdu, v: Verdict)
    requires |m.configId| == CONFIG_ID_SIZE
    requires b[TCN_SIZE..CONFIG_SIZE] == EncodeCommon(m) && b[RST_SIZE + 2..MST_SIZE] == EncodeMstPart(m)
    ensures SameCommon(Parse(b, v), m) && SameMstPart(Parse(b, v), m)
  {
    CommonRoundTrip(m, BLANK);
    MstPartRoundTrip(m, DecodeCommon(BLANK, b[TCN_SIZE..CONFIG_SIZE]));
  }

  lemma TableEntry(b: Buffer, t: MstiTable, n: nat, j: nat)
    requires j < n <= MAX_STANDARD_MSTIS && b[MST_SIZE..MST_SIZE + n * MSTI_SIZE] == EncodeMstis(t, n)
    ensures TableIn(b)[j] == t[j]
  {
    MstiAt(t, n, j);
    Within(b, MST_SIZE, n * MSTI_SIZE, j * MSTI_SIZE, (j + 1) * MSTI_SIZE);
    MessageEntry(b, t[j], j);
  }

  lemma MessageEntry(b: Buffer, m: MstiMsg, j: MstiIndex)
    requires b[MST_SIZE + j * MSTI_SIZE..MST_SIZE + (j + 1) * MSTI_SIZE] == EncodeMsti(m)
    ensures MstiIn(b, j) == m
  {
    MstiRoundTrip(m);
  }

  lemma Within(b: Buffer, at: nat, len: nat, lo: nat, hi: nat)
    requires at + len <= BUFFER_SIZE && lo <= hi <= len
    ensures b[at..at + len][lo..hi] == b[at + lo..at + hi]
  {
    var s, t := b[at..at + len][lo..hi], b[at + lo..at + hi];
    assert |s| == |t|;
    forall i | 0 <= i < |s|
      ensures s[i] == t[i]
    {
      assert s[i] == b[at..at + len][lo + i] == b[at + (lo + i)];
    }
  }
}
