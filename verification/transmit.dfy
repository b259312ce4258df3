/** The Port Transmit state machine (section 13.31) and the messages it sends (13.26.19, 13.26.20). */
module Transmit {
  import opened Types
  import opened PortInfo

  // ---- Messages ----

  function EncodeRole(r: Role): EncodedRole {
    match r
    case RoleRoot => EncRoot
    case RoleDesignated => EncDesignated
    case RoleMaster => EncMaster
    case RoleAlternate | RoleBackup | RoleDisabled => EncAlternateBackup
  }

  function TreeFlags(p: Ptp, bit7: bool): FlagOctet {
    FlagOctet(p.tcWhile != 0, p.proposing.On?, EncodeRole(p.role), p.learning.On?, p.forwarding.On?, p.agree.On?, bit7)
  }

  function Whole(seconds: u8): WireTime {
    WireTime(seconds, 0)
  }

  function MstiMessage(p: Ptp): MstiMsg {
    MstiMsg(TreeFlags(p, p.master.On?), p.designatedPriority.rrootId, p.designatedPriority.intCost,
            p.designatedPriority.desBridge.priority / 0x1000 * 16, p.designatedPriority.desPort / 0x1000 * 16,
            p.designatedTimes.hops)
  }

  /** The MSTI messages in list order; the rest of the table is not sent. */
  function MstiTableOf(ptps: seq<Ptp>): MstiTable {
    seq(MAX_STANDARD_MSTIS, j requires 0 <= j < MAX_STANDARD_MSTIS =>
          if j + 1 < |ptps| then MstiMessage(ptps[j + 1]) else NO_MSTI)
  }

  /** `txMstp`: an MST BPDU, or an RST BPDU when the bridge is forced to RSTP. */
  function RstpMessage(c: Column, cfg: Config): Bpdu
    requires |c.ptps| > 0
  {
    var p := c.ptps[0];
    var v, t := p.designatedPriority, p.designatedTimes;
    var mst := cfg.version == ProtoMSTP;
    Bpdu(if mst then ProtoMSTP else ProtoRSTP, TypeRst, TreeFlags(p, false),
         v.rootId, v.extCost, v.rrootId, v.desPort,
         Whole(t.messageAge), Whole(t.maxAge), Whole(p.portTimes.hello), Whole(t.forwardDelay),
         if mst then cfg.configId else [], if mst then v.intCost else 0, if mst then v.desBridge else NO_ID,
         if mst then t.hops else 0, if mst then MstiTableOf(c.ptps) else NoMstis())
  }

  /** `txConfig`: the bridge identifier travels in the place of the regional root. */
  function ConfigMessage(c: Column): Bpdu
    requires |c.ptps| > 0
  {
    var p := c.ptps[0];
    var v, t := p.designatedPriority, p.designatedTimes;
    Bpdu(ProtoSTP, TypeConfig, NO_FLAGS.(tc := p.tcWhile != 0, tcAck := c.prt.tcAck.On?),
         v.rootId, v.extCost, v.desBridge, v.desPort,
         Whole(t.messageAge), Whole(t.maxAge), Whole(p.portTimes.hello), Whole(t.forwardDelay),
         [], 0, NO_ID, 0, NoMstis())
  }

  predicate MayTransmit(c: Column)
    requires |c.ptps| > 0
  {
    c.prt.deleted.Off? && c.ptps[0].role != RoleDisabled && c.prt.dontTxmtBpdu.Off?
  }

  function Sent(c: Column, x: PtsmState, cfg: Config, port: nat): seq<Output>
    requires |c.ptps| > 0
  {
    if !MayTransmit(c) then []
    else match x
      case TransmitConfig => [TxConfig(port, ConfigMessage(c))]
      case TransmitTcn => [TxTcn(port)]
      case TransmitRstp => if cfg.version == ProtoMSTP then [TxMst(port, RstpMessage(c, cfg), |c.ptps| - 1)]
                           else [TxRst(port, RstpMessage(c, cfg))]
      case _ => []
  }

  // ---- The state machine ----

  predicate Speaks(p: Ptp) {
    p.role == RoleDesignated || (p.role == RoleRoot && p.tcWhile != 0)
  }

  /** Bridge assurance transmits all the time. */
  predicate AssurancePort(prt: Port) {
    prt.networkPort.On? && prt.pointToPoint.On? && prt.sendRSTP.On?
  }

  function IdleTarget(c: Column, cfg: Config): Option<PtsmState>
    requires |c.ptps| > 0
  {
    var prt := c.prt;
    var master := exists j :: 1 <= j < |c.ptps| && c.ptps[j].role == RoleMaster;
    if exists j :: 0 <= j < |c.ptps| && (c.ptps[j].selected.Off? || c.ptps[j].updtInfo.On?) then None
    else if prt.helloWhen == 0 then Some(TransmitPeriodic)
    else if prt.txCount >= cfg.txHoldCount || prt.bpduFilter.On? then None
    else if prt.sendRSTP.On? then
      if prt.newInfo.On? || (prt.newInfoMsti.On? && !master) || AssurancePort(prt) then Some(TransmitRstp) else None
    else if prt.newInfo.On? && c.ptps[0].role == RoleDesignated then Some(TransmitConfig)
    else if prt.newInfo.On? && c.ptps[0].role == RoleRoot then Some(TransmitTcn)
    else None
  }

  /** The state that an enabled port enters next. */
  function Target(c: Column, cfg: Config): Option<PtsmState>
    requires |c.ptps| > 0
  {
    if c.prt.ptsm != TransmitIdle then Some(TransmitIdle) else IdleTarget(c, cfg)
  }

  /** The test of its own that `PTSM_to_TRANSMIT_INIT` makes in a dry run. */
  predicate InitDry(prt: Port) {
    prt.ptsm != TransmitInit || prt.newInfo.Off? || prt.newInfoMsti.Off? || prt.txCount != 0
  }

  /** What `PTSM_run` reports in a dry run. */
  predicate Dry(c: Column, cfg: Config)
    requires |c.ptps| > 0
  {
    if c.prt.portEnabled.Off? then InitDry(c.prt) else Target(c, cfg).Some?
  }

  function Enter(c: Column, x: PtsmState): Port
    requires |c.ptps| > 0
  {
    var prt := c.prt.(ptsm := x);
    match x
    case TransmitInit => prt.(newInfo := On, newInfoMsti := On, txCount := 0)
    case TransmitConfig => prt.(newInfo := Off, txCount := prt.txCount + 1, tcAck := Off)
    case TransmitTcn => prt.(newInfo := Off, txCount := prt.txCount + 1)
    case TransmitRstp => prt.(newInfo := Off, newInfoMsti := Off, txCount := prt.txCount + 1, tcAck := Off)
    case TransmitPeriodic =>
      var msti := exists j :: 1 <= j < |c.ptps| && Speaks(c.ptps[j]);
      prt.(newInfo := if Speaks(c.ptps[0]) then On else prt.newInfo,
           newInfoMsti := if msti then On else prt.newInfoMsti)
    case TransmitIdle => prt.(helloWhen := c.ptps[0].portTimes.hello)
  }

  function Measure(c: Column, cfg: Config): nat
    requires |c.ptps| > 0
  {
    4 * (if c.prt.txCount < cfg.txHoldCount then cfg.txHoldCount - c.prt.txCount else 0)
    + if c.prt.ptsm != TransmitIdle then 1 else if c.prt.helloWhen == 0 then 2 else 0
  }

  /** The machine makes progress because the Hello Time it reloads is not 0. */
  lemma StepDecreases(c: Column, cfg: Config)
    requires |c.ptps| > 0 && c.ptps[0].portTimes.hello > 0 && Target(c, cfg).Some?
    ensures Measure(c.(prt := Enter(c, Target(c, cfg).value)), cfg) < Measure(c, cfg)
  {
  }

  /** With a Hello Time of 0 an enabled, idle port on settled roles would never stop sending. */
  predicate Spinning(c: Column) {
    && |c.ptps| > 0 && c.ptps[0].portTimes.hello == 0 && c.prt.portEnabled.On? && c.prt.helloWhen == 0
    && (forall j :: 0 <= j < |c.ptps| ==> c.ptps[j].selected.On? && c.ptps[j].updtInfo.Off?)
  }

  lemma HelloZeroSpins(c: Column, cfg: Config)
    requires Spinning(c)
    ensures Target(c, cfg).Some? && Spinning(c.(prt := Enter(c, Target(c, cfg).value)))
  {
    assert c.prt.ptsm == TransmitIdle ==> IdleTarget(c, cfg) == Some(TransmitPeriodic);
  }

  /** The port and the transmissions of an enabled port that runs to rest. */
  function EnabledRest(c: Column, cfg: Config, port: nat): (r: (Port, seq<Output>))
    requires |c.ptps| > 0 && c.ptps[0].portTimes.hello > 0
    decreases Measure(c, cfg)
  {
    var x := Target(c, cfg);
    if x.None? then (c.prt, [])
    else
      StepDecreases(c, cfg);
      var next := EnabledRest(c.(prt := Enter(c, x.value)), cfg, port);
      (next.0, Sent(c, x.value, cfg, port) + next.1)
  }

  /** The run of the machine: a disabled port is initialised, whether or not it already is. */
  function Rest(c: Column, cfg: Config, port: nat): (r: (Port, seq<Output>))
    requires |c.ptps| > 0 && c.ptps[0].portTimes.hello > 0
  {
    if c.prt.portEnabled.Off? then (Enter(c, TransmitInit), []) else EnabledRest(c, cfg, port)
  }

  predicate PortFrame(a: Port, b: Port) {
    b == a.(ptsm := b.ptsm, newInfo := b.newInfo, newInfoMsti := b.newInfoMsti, txCount := b.txCount,
            tcAck := b.tcAck, helloWhen := b.helloWhen)
  }

  lemma EnterIsFramed(c: Column, x: PtsmState)
    requires |c.ptps| > 0
    ensures PortFrame(c.prt, Enter(c, x))
  {
  }

  lemma FramesCompose(a: Port, b: Port, c: Port)
    requires PortFrame(a, b) && PortFrame(b, c)
    ensures PortFrame(a, c)
  {
  }

  lemma {:induction false} EnabledRestComesToRest(c: Column, cfg: Config, port: nat)
    requires |c.ptps| > 0 && c.ptps[0].portTimes.hello > 0 && c.prt.portEnabled.On?
    ensures var r := EnabledRest(c, cfg, port).0;
            Target(c.(prt := r), cfg).None? && r.ptsm == TransmitIdle && PortFrame(c.prt, r)
    ensures Target(c, cfg).Some? ==> Measure(c.(prt := EnabledRest(c, cfg, port).0), cfg) < Measure(c, cfg)
    decreases Measure(c, cfg)
  {
    var x := Target(c, cfg);
    if x.Some? {
      StepDecreases(c, cfg);
      EnterIsFramed(c, x.value);
      var next := c.(prt := Enter(c, x.value));
      EnabledRestComesToRest(next, cfg, port);
      FramesCompose(c.prt, next.prt, EnabledRest(next, cfg, port).0);
      assert c.(prt := EnabledRest(c, cfg, port).0) == next.(prt := EnabledRest(next, cfg, port).0);
    }
  }

  /** The machine stops idle or, on a disabled port, initialised; a dry run then reports nothing; and it changes only
      the variables it owns. */
  lemma RestComesToRest(c: Column, cfg: Config, port: nat)
    requires |c.ptps| > 0 && c.ptps[0].portTimes.hello > 0
    ensures var r := Rest(c, cfg, port).0;
            && !Dry(c.(prt := r), cfg)
            && r.ptsm == (if c.prt.portEnabled.On? then TransmitIdle else TransmitInit)
            && PortFrame(c.prt, r)
  {
    if c.prt.portEnabled.On? { EnabledRestComesToRest(c, cfg, port); }
  }

  /** The test that a disabled port makes is exact: it holds if and only if the entry actions change something. */
  lemma InitDryIffChange(c: Column)
    requires |c.ptps| > 0
    ensures InitDry(c.prt) <==> Enter(c, TransmitInit) != c.prt
  {
  }

  /** The dry run reports a change exactly when the run makes one. */
  lemma DryIffChange(c: Column, cfg: Config, port: nat)
    requires |c.ptps| > 0 && c.ptps[0].portTimes.hello > 0
    ensures Dry(c, cfg) <==> Rest(c, cfg, port) != (c.prt, [])
  {
    if c.prt.portEnabled.On? { EnabledRestComesToRest(c, cfg, port); }
  }

  // ---- The rate of transmission ----

  lemma {:induction false} EnabledRestCounts(c: Column, cfg: Config, port: nat)
    requires |c.ptps| > 0 && c.ptps[0].portTimes.hello > 0 && c.prt.txCount <= cfg.txHoldCount
    ensures var r := EnabledRest(c, cfg, port);
            r.0.txCount <= cfg.txHoldCount && |r.1| <= r.0.txCount - c.prt.txCount
    decreases Measure(c, cfg)
  {
    var x := Target(c, cfg);
    if x.Some? {
      StepDecreases(c, cfg);
      EnabledRestCounts(c.(prt := Enter(c, x.value)), cfg, port);
    }
  }

  /** A run counts every transmission and never counts beyond the Transmit Hold Count. */
  lemma RestCountsTransmissions(c: Column, cfg: Config, port: nat)
    requires |c.ptps| > 0 && c.ptps[0].portTimes.hello > 0 && c.prt.txCount <= cfg.txHoldCount
    ensures var r := Rest(c, cfg, port);
            && r.0.txCount <= cfg.txHoldCount
            && (c.prt.portEnabled.On? ==> |r.1| <= r.0.txCount - c.prt.txCount)
            && (c.prt.portEnabled.Off? ==> r.1 == [])
  {
    if c.prt.portEnabled.On? { EnabledRestCounts(c, cfg, port); }
  }

  /** What can happen to the counter between two resets: a one-second tick, or a run of the machine in
      whatever state the rest of the port is in. */
  datatype Event = Tick | Run(c: Column, port: nat)

  function AfterTick(txCount: nat): nat {
    if txCount > 0 then txCount - 1 else 0
  }

  /** The history starts from counter value `txCount`; between resets the port stays enabled. */
  ghost predicate History(es: seq<Event>, txCount: nat, cfg: Config) {
    es == [] ||
    match es[0]
    case Tick => History(es[1..], AfterTick(txCount), cfg)
    case Run(c, port) =>
      && |c.ptps| > 0 && c.ptps[0].portTimes.hello > 0 && c.prt.portEnabled.On? && c.prt.txCount == txCount
      && History(es[1..], Rest(c, cfg, port).0.txCount, cfg)
  }

  ghost function Transmissions(es: seq<Event>, txCount: nat, cfg: Config): nat
    requires History(es, txCount, cfg)
  {
    if es == [] then 0
    else match es[0]
      case Tick => Transmissions(es[1..], AfterTick(txCount), cfg)
      case Run(c, port) => |Rest(c, cfg, port).1| + Transmissions(es[1..], Rest(c, cfg, port).0.txCount, cfg)
  }

  function Ticks(es: seq<Event>): nat {
    if es == [] then 0 else (if es[0].Tick? then 1 else 0) + Ticks(es[1..])
  }

  /** In any history with `n` ticks a port makes at most Transmit Hold Count + `n` transmissions. */
  lemma {:induction false} TransmissionRate(es: seq<Event>, txCount: nat, cfg: Config)
    requires txCount <= cfg.txHoldCount && History(es, txCount, cfg)
    ensures Transmissions(es, txCount, cfg) + txCount <= cfg.txHoldCount + Ticks(es)
    decreases |es|
  {
    if es != [] {
      match es[0]
      case Tick => TransmissionRate(es[1..], AfterTick(txCount), cfg);
      case Run(c, port) =>
        RestCountsTransmissions(c, cfg, port);
        TransmissionRate(es[1..], Rest(c, cfg, port).0.txCount, cfg);
    }
  }
}
