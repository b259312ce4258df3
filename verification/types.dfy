/** Data model of the spanning tree daemon: the records of mstp.h and the bridge object.

    Ports and per-tree ports are records kept in the bridge object's sequences: the row of
    tree `t` is `trees[t].ptps`, and its entry `i` belongs to port `i`. Tree 0 is the CIST. */
module Types {

  type u8 = x: int | 0 <= x < 0x100
  type u16 = x: int | 0 <= x < 0x1_0000
  type u32 = x: int | 0 <= x < 0x1_0000_0000
  type u48 = x: int | 0 <= x < 0x1_0000_0000_0000

  const MAX_PATH_COST: u32 := 200_000_000
  const MAX_STANDARD_MSTIS := 64
  const MAX_IMPLEMENTATION_MSTIS := 63
  const MAX_VID := 4094
  const MAX_FID := 4095
  const MAX_MSTID := 4094

  datatype Option<+T> = None | Some(value: T)

  /** A boolean variable of a state machine. */
  datatype Flag = Off | On

  function FlagOf(b: bool): Flag {
    if b then On else Off
  }

  /** A bridge identifier: the 16-bit priority (4-bit priority, 12-bit tree number) and the MAC address. */
  datatype BridgeId = BridgeId(priority: u16, mac: u48)

  datatype Vec = Vec(
    rrootId: BridgeId, intCost: u32, desBridge: BridgeId, desPort: u16,
    rootId: BridgeId, extCost: u32)

  datatype Times = Times(hops: u8, forwardDelay: u8, maxAge: u8, messageAge: u8, hello: u8)

  datatype Info = OtherInfo | SuperiorDesignated | RepeatedDesignated | InferiorDesignated | InferiorRootAlternate
  datatype InfoIs = IoDisabled | IoMine | IoAged | IoReceived
  datatype Role = RoleDisabled | RoleRoot | RoleDesignated | RoleAlternate | RoleBackup | RoleMaster
  datatype Version = ProtoSTP | ProtoRSTP | ProtoMSTP
  datatype BrState = BrDisabled | BrLearning | BrForwarding | BrBlocking

  datatype PrsmState = RxDiscard | RxReceive
  datatype PpmsmState = CheckingRstp | SelectingStp | Sensing
  datatype BdsmState = Edge | NotEdge
  datatype PtsmState = TransmitInit | TransmitConfig | TransmitTcn | TransmitRstp | TransmitPeriodic | TransmitIdle
  datatype PismState =
    | PiDisabled | PiAged | PiUpdate | PiSuperior | PiRepeated | PiInferior
    | PiNotDesignated | PiOther | PiCurrent | PiReceive
  datatype PrssmState = InitTree | RoleSelection
  datatype PrtsmState =
    | InitPort | DisablePort | DisabledPort
    | MasterProposed | MasterAgreed | MasterSynced | MasterRetired
    | MasterForward | MasterLearn | MasterDiscard | MasterPort
    | RootProposed | RootAgreed | RootSynced | Reroot | RootForward | RootLearn | Rerooted | RootPort
    | DesignatedPropose | DesignatedAgreed | DesignatedSynced | DesignatedRetired
    | DesignatedForward | DesignatedLearn | DesignatedDiscard | DesignatedPort
    | BlockPort | BackupPort | AlternateProposed | AlternateAgreed | AlternatePort
  datatype PstsmState = PsDiscarding | PsLearning | PsForwarding
  datatype TcsmState =
    | TcInactive | TcLearning | TcDetected | TcNotifiedTcn | TcNotifiedTc
    | TcPropagating | TcAcknowledged | TcActive

  /** Flag octet of a BPDU or of an MSTI configuration message; `role` is the two-bit encoded role. */
  datatype FlagOctet = FlagOctet(
    tc: bool, proposal: bool, role: EncodedRole, learning: bool, forwarding: bool, agreement: bool, tcAck: bool)
  datatype EncodedRole = EncMaster | EncAlternateBackup | EncRoot | EncDesignated

  /** In an MSTI message bit 7 of the flags (`tcAck` of a CIST message) is the Master flag. */
  datatype MstiMsg = MstiMsg(
    flags: FlagOctet, rrootId: BridgeId, intCost: u32, bridgePriority: u8, portPriority: u8, hops: u8)

  type MstiTable = s: seq<MstiMsg> | |s| == MAX_STANDARD_MSTIS witness NoMstis()
  type MstiIndex = i: int | 0 <= i < MAX_STANDARD_MSTIS

  const NO_ID := BridgeId(0, 0)
  const NO_FLAGS := FlagOctet(false, false, EncMaster, false, false, false, false)
  const NO_MSTI := MstiMsg(NO_FLAGS, NO_ID, 0, 0, 0, 0)

  function NoMstis(): (s: seq<MstiMsg>)
    ensures |s| == MAX_STANDARD_MSTIS
  {
    seq(MAX_STANDARD_MSTIS, i => NO_MSTI)
  }

  datatype BpduType = TypeConfig | TypeRst | TypeTcn

  /** A time field of a BPDU: whole seconds and 256ths of a second. */
  datatype WireTime = WireTime(whole: u8, frac: u8)

  /** The copy of a received BPDU, after the validation of section 14.4 of IEEE 802.1Q-2005. */
  datatype Bpdu = Bpdu(
    version: Version, bpduType: BpduType, flags: FlagOctet,
    rootId: BridgeId, extCost: u32, rrootId: BridgeId, portId: u16,
    messageAge: WireTime, maxAge: WireTime, helloTime: WireTime, forwardDelay: WireTime,
    configId: seq<u8>, intCost: u32, bridgeId: BridgeId, hops: u8,
    mstis: MstiTable)

  /** Per-tree variables of a port (sections 13.21 and 13.24). */
  datatype Ptp = Ptp(
    mstid: u16, brState: BrState,
    fdWhile: nat, rrWhile: nat, rbWhile: nat, tcWhile: nat, rcvdInfoWhile: nat,
    agree: Flag, agreed: Flag, disputed: Flag,
    forward: Flag, forwarding: Flag, learn: Flag, learning: Flag,
    rcvdInfo: Info, infoIs: InfoIs,
    proposed: Flag, proposing: Flag, rcvdMsg: Flag, rcvdTc: Flag,
    reRoot: Flag, reselect: Flag, selected: Flag,
    fdbFlush: Flag, tcProp: Flag, updtInfo: Flag, sync: Flag, synced: Flag,
    portId: u16, role: Role, selectedRole: Role,
    designatedPriority: Vec, msgPriority: Vec, portPriority: Vec,
    designatedTimes: Times, msgTimes: Times, portTimes: Times,
    master: Flag, mastered: Flag, internalCost: u32, rcvdMsti: MstiIndex,
    pism: PismState, prtsm: PrtsmState, pstsm: PstsmState, tcsm: TcsmState)

  /** Per-port variables (sections 13.21 and 13.24). */
  datatype Port = Port(
    mdelayWhile: nat, helloWhen: nat, edgeDelayWhile: nat, brAssuRcvdInfoWhile: nat, rapidAgeingWhile: nat,
    txCount: nat,
    operEdge: Flag, portEnabled: Flag, infoInternal: Flag, rcvdInternal: Flag,
    mcheck: Flag, rcvdBpdu: Flag, rcvdRSTP: Flag, rcvdSTP: Flag, rcvdTcAck: Flag, rcvdTcn: Flag,
    sendRSTP: Flag, tcAck: Flag, newInfo: Flag, newInfoMsti: Flag, pointToPoint: Flag,
    restrictedRole: Flag, restrictedTcn: Flag, externalCost: u32,
    adminEdge: Flag, autoEdge: Flag, networkPort: Flag, baInconsistent: Flag,
    dontTxmtBpdu: Flag, bpduFilter: Flag, deleted: Flag,
    bpdu: Bpdu, numMstis: nat,
    prsm: PrsmState, ppmsm: PpmsmState, bdsm: BdsmState, ptsm: PtsmState)

  /** Per-tree variables of the bridge (section 13.23) and the tree's row of per-tree ports. */
  datatype Tree = Tree(
    mstid: u16, bridgeId: BridgeId,
    rootPortId: u16, rootPriority: Vec, bridgePriority: Vec, bridgeTimes: Times, rootTimes: Times,
    timeSinceTc: nat, tcCount: u32, topologyChange: bool,
    prssm: PrssmState, ptps: seq<Ptp>)

  /** Per-bridge parameters (section 13.22). */
  datatype Config = Config(
    enabled: bool, configId: seq<u8>, version: Version,
    maxHops: u8, forwardDelay: u8, maxAge: u8, hello: u8,
    txHoldCount: nat, migrateTime: nat, ageingTime: nat)

  predicate RstpVersion(cfg: Config) {
    cfg.version != ProtoSTP
  }

  /** What the daemon tells the kernel and the driver. */
  datatype Output =
    | SetState(port: nat, mstid: u16, state: BrState)
    | FlushFids(port: nat, mstid: u16)
    | SetAgeing(port: nat, seconds: nat)
    | TxConfig(port: nat, msg: Bpdu)
    | TxTcn(port: nat)
    | TxRst(port: nat, msg: Bpdu)
    | TxMst(port: nat, msg: Bpdu, mstis: nat)

  /** Every row has one entry per port. */
  ghost predicate RowsFit(ports: seq<Port>, trees: seq<Tree>) {
    forall t :: 0 <= t < |trees| ==> |trees[t].ptps| == |ports|
  }

  /** The mesh: a rectangle of per-tree ports, whose tree 0 is the CIST. */
  ghost predicate MeshShape(ports: seq<Port>, trees: seq<Tree>) {
    && |trees| > 0
    && RowsFit(ports, trees)
    && (forall t :: 0 <= t < |trees| ==> (trees[t].mstid == 0 <==> t == 0))
  }

  /** The bridge object whose fields every routine of the daemon updates in place. */
  class Bridge {
    var cfg: Config
    var ports: seq<Port>
    var trees: seq<Tree>
    var out: seq<Output>

    ghost predicate Valid()
      reads this
    {
      MeshShape(ports, trees)
    }

    constructor (cfg: Config, ports: seq<Port>, trees: seq<Tree>)
      requires MeshShape(ports, trees)
      ensures Valid() && this.cfg == cfg && this.ports == ports && this.trees == trees && out == []
    {
      this.cfg, this.ports, this.trees, out := cfg, ports, trees, [];
    }
  }
}
