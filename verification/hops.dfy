/** Propagation inside a region is bounded by the remaining hops. */
module Hops {
  import opened Types
  import opened Vectors
  import PI = PortInfo
  import PIT = PortInfoTheorems
  import H = Hearing
  import Roles

  /** The remaining hops that the received message carries for tree `k`. */
  function MessageHops(c: PI.Column, k: nat): u8
    requires k < |c.ptps|
  {
    if c.ptps[k].mstid == 0 then c.prt.bpdu.hops else c.prt.bpdu.mstis[c.ptps[k].rcvdMsti].hops
  }

  // ---- Runs of the machine, for any entry actions that behave like its own ----

  type Entering = (PI.Column, nat, PismState) -> PI.Column

  /** The actions change what they own, in the way that drives the machine, and RECEIVE decodes the remaining hops. */
  ghost predicate Good(f: Entering) {
    && (forall c: PI.Column, k: nat, x :: k < |c.ptps| ==>
          var r := f(c, k, x); |r.ptps| == |c.ptps| && PI.Framed(c, r, k) && PI.Controlled(c, r, k, x))
    && (forall c: PI.Column, k: nat :: k < |c.ptps| && c.prt.bpdu.version == ProtoMSTP ==>
          var q := f(c, k, PiReceive).ptps; k < |q| && DecodesHops(q[k], MessageHops(c, k)))
  }

  predicate DecodesHops(q: Ptp, hops: u8) {
    q.rcvdInfo == SuperiorDesignated ==> q.msgTimes.hops == hops
  }

  ghost function Actions(cfg: Config): Entering {
    (c: PI.Column, k: nat, x: PismState) => if k < |c.ptps| then PI.Enter(c, k, x, cfg) else c
  }

  lemma ActionsAreGood(cfg: Config)
    ensures Good(Actions(cfg))
  {
    forall c: PI.Column, k: nat, x | k < |c.ptps|
      ensures var r := Actions(cfg)(c, k, x); |r.ptps| == |c.ptps| && PI.Framed(c, r, k) && PI.Controlled(c, r, k, x)
    {
      PI.EnterControls(c, k, x, cfg);
    }
    forall c: PI.Column, k: nat | k < |c.ptps| && c.prt.bpdu.version == ProtoMSTP
      ensures DecodesHops(Actions(cfg)(c, k, PiReceive).ptps[k], MessageHops(c, k))
    {
      ReceiveDecodes(c, k, cfg);
    }
  }

  lemma ReceiveDecodes(c: PI.Column, k: nat, cfg: Config)
    requires k < |c.ptps| && c.prt.bpdu.version == ProtoMSTP
    ensures DecodesHops(PI.Enter(c, k, PiReceive, cfg).ptps[k], MessageHops(c, k))
  {
    var c1 := PI.Mark(c, k, PiReceive);
    var c2 := PI.RcvInfo(c1, k, cfg);
    PI.RecordMasteredFramed(c2, k);
    assert PI.Enter(c, k, PiReceive, cfg) == PI.RecordMastered(c2, k);
  }

  ghost function Next(f: Entering, c: PI.Column, k: nat): (r: PI.Column)
    requires Good(f) && k < |c.ptps| && PI.Target(c, k).Some?
    ensures |r.ptps| == |c.ptps| && PI.Framed(c, r, k) && PI.Controlled(c, r, k, PI.Target(c, k).value)
    ensures PI.Measure(r, k) < PI.Measure(c, k)
  {
    var r := f(c, k, PI.Target(c, k).value);
    PI.ControlledDecreases(c, r, k);
    r
  }

  ghost function Run(f: Entering, c: PI.Column, k: nat): (r: PI.Column)
    requires Good(f) && k < |c.ptps|
    ensures |r.ptps| == |c.ptps|
    decreases PI.Measure(c, k)
  {
    if PI.Target(c, k).None? then c else Run(f, Next(f, c, k), k)
  }

  lemma {:induction false} RunIsRest(c: PI.Column, k: nat, cfg: Config)
    requires k < |c.ptps| && Good(Actions(cfg))
    ensures Run(Actions(cfg), c, k) == PI.Rest(c, k, cfg)
    decreases PI.Measure(c, k)
  {
    if PI.Target(c, k).Some? {
      RunIsRest(Next(Actions(cfg), c, k), k, cfg);
      H.Unroll(c, k, cfg);
    }
  }

  /** The run records the message: it passes through SUPERIOR_DESIGNATED. */
  ghost predicate RecordsBy(f: Entering, c: PI.Column, k: nat)
    requires Good(f) && k < |c.ptps|
    decreases PI.Measure(c, k)
  {
    && PI.Target(c, k).Some?
    && (PI.Target(c, k).value == PiSuperior || RecordsBy(f, Next(f, c, k), k))
  }

  /** How a superior message with `hops` remaining hops is held after the run. */
  predicate Held(p: Ptp, hops: u8, hello: u8) {
    p.portTimes.hops == hops && p.infoIs == if hops > 1 && hello > 0 then IoReceived else IoAged
  }

  /** The message comes from the bridge's own region, and the machine is not inside RECEIVE, where it never rests. */
  predicate HearsRegion(c: PI.Column, k: nat) {
    k < |c.ptps| && c.prt.rcvdInternal.On? && c.prt.bpdu.version == ProtoMSTP && c.ptps[k].pism != PiReceive
  }

  lemma {:induction false} RecordingRun(f: Entering, c: PI.Column, k: nat)
    requires Good(f) && HearsRegion(c, k) && c.prt.portEnabled.On? && RecordsBy(f, c, k)
    ensures var r := Run(f, c, k); Held(r.ptps[k], MessageHops(c, k), r.ptps[0].portTimes.hello)
    decreases PI.Measure(c, k)
  {
    var next := Next(f, c, k);
    if PI.Target(c, k).value == PiReceive {
      assert !PI.UpdtXstInfo(c, k);
      RecordsFromReceive(f, next, k);
      RunAfterReceive(f, next, k);
    } else {
      StepKeepsHearing(c, next, k, PI.Target(c, k).value);
      RecordingRun(f, next, k);
    }
  }

  lemma StepKeepsHearing(c: PI.Column, r: PI.Column, k: nat, x: PismState)
    requires HearsRegion(c, k) && |r.ptps| == |c.ptps| && x != PiReceive
    requires PI.Framed(c, r, k) && PI.Controlled(c, r, k, x)
    ensures HearsRegion(r, k) && MessageHops(r, k) == MessageHops(c, k) && r.prt.portEnabled == c.prt.portEnabled
  {
  }

  /** Without an unread message nothing is recorded. */
  lemma {:induction false} NothingToRecord(f: Entering, c: PI.Column, k: nat)
    requires Good(f) && k < |c.ptps| && c.ptps[k].rcvdMsg.Off? && c.ptps[k].pism != PiReceive
    ensures !RecordsBy(f, c, k)
    decreases PI.Measure(c, k)
  {
    if PI.Target(c, k).Some? {
      NothingToRecord(f, Next(f, c, k), k);
    }
  }

  /** In RECEIVE only a superior message is recorded. */
  lemma RecordsFromReceive(f: Entering, c: PI.Column, k: nat)
    requires Good(f) && k < |c.ptps| && c.prt.portEnabled.On? && c.ptps[k].pism == PiReceive && RecordsBy(f, c, k)
    ensures c.ptps[k].rcvdInfo == SuperiorDesignated
  {
    if PI.Target(c, k) != Some(PiSuperior) {
      NothingToRecord(f, Next(f, c, k), k);
    }
  }

  /** The run from RECEIVE on. */
  lemma RunAfterReceive(f: Entering, c: PI.Column, k: nat)
    requires Good(f) && k < |c.ptps| && c.prt.portEnabled.On? && c.prt.rcvdInternal.On? && c.ptps[k].updtInfo.Off?
    requires c.ptps[k].pism == PiReceive && c.ptps[k].rcvdInfo == SuperiorDesignated
    ensures var r := Run(f, c, k); Held(r.ptps[k], c.ptps[k].msgTimes.hops, r.ptps[0].portTimes.hello)
  {
    RunAfterSuperior(f, Next(f, c, k), k);
  }

  /** The run from SUPERIOR_DESIGNATED on. */
  lemma RunAfterSuperior(f: Entering, c: PI.Column, k: nat)
    requires Good(f) && k < |c.ptps| && c.prt.portEnabled.On? && c.prt.rcvdInternal.On? && c.ptps[k].updtInfo.Off?
    requires c.ptps[k].pism == PiSuperior && c.ptps[k].rcvdMsg.Off? && c.ptps[k].selected.Off?
    requires c.ptps[k].infoIs == IoReceived && c.ptps[k].rcvdInfoWhile == PI.InfoLifetime(c, k)
    ensures var r := Run(f, c, k); Held(r.ptps[k], c.ptps[k].portTimes.hops, r.ptps[0].portTimes.hello)
  {
    var d := Next(f, c, k);
    assert k == 0 || PI.OtherFrame(c.ptps[0], d.ptps[0]);
    Settles(f, d, k);
  }

  /** In CURRENT, information just received stays or ages. */
  lemma Settles(f: Entering, c: PI.Column, k: nat)
    requires Good(f) && k < |c.ptps| && c.prt.portEnabled.On? && c.ptps[k].updtInfo.Off?
    requires c.ptps[k].pism == PiCurrent && c.ptps[k].rcvdMsg.Off? && c.ptps[k].selected.Off?
    requires c.ptps[k].infoIs == IoReceived
    ensures var p, r := c.ptps[k], Run(f, c, k);
            && r.ptps[k].portTimes == p.portTimes && r.ptps[0].portTimes.hello == c.ptps[0].portTimes.hello
            && r.ptps[k].infoIs == if p.rcvdInfoWhile > 0 then IoReceived else IoAged
  {
    if c.ptps[k].rcvdInfoWhile == 0 {
      var d := Next(f, c, k);
      assert PI.Target(d, k).None?;
      assert Run(f, d, k) == d;
      assert k == 0 || PI.OtherFrame(c.ptps[0], d.ptps[0]);
    } else {
      assert PI.Target(c, k).None?;
    }
  }

  // ---- The machine's own actions ----

  /** The run of the machine records the message. */
  ghost predicate Records(c: PI.Column, k: nat, cfg: Config)
    requires k < |c.ptps|
  {
    ActionsAreGood(cfg);
    RecordsBy(Actions(cfg), c, k)
  }

  /** A run, from whatever state, that records a message of the same region: if the message has at most one hop left its
      information is already aged when that run ends. */
  lemma SuperiorRun(c: PI.Column, k: nat, cfg: Config)
    requires HearsRegion(c, k) && c.prt.portEnabled.On? && Records(c, k, cfg)
    ensures var r := PI.Rest(c, k, cfg); Held(r.ptps[k], MessageHops(c, k), r.ptps[0].portTimes.hello)
  {
    ActionsAreGood(cfg);
    RecordingRun(Actions(cfg), c, k);
    RunIsRest(c, k, cfg);
  }

  /** One bridge of a chain: the port column that receives, and the tree whose Root Port that port then is. */
  datatype Relay = Relay(col: PI.Column, k: nat, cfg: Config, tree: Tree, ports: seq<Port>, port: nat, out: nat)

  /** The message is taken over as information that role selection can use. */
  ghost predicate Accepts(r: Relay) {
    && HearsRegion(r.col, r.k) && Records(r.col, r.k, r.cfg)
    && PI.Rest(r.col, r.k, r.cfg).ptps[r.k].infoIs == IoReceived
  }

  /** Role selection made the receiving port the Root Port and `out` is some port of the bridge. */
  ghost predicate Selects(r: Relay) {
    && Accepts(r) && |r.tree.ptps| == |r.ports| && r.port < |r.ports| && r.out < |r.ports|
    && r.tree.ptps[r.port] == PI.Rest(r.col, r.k, r.cfg).ptps[r.k] && r.ports[r.port].rcvdInternal.On?
    && Roles.RootOf(r.tree, r.ports).index == Some(r.port)
  }

  /** The remaining hops that the bridge transmits. */
  function SentHops(r: Relay, cistRow: seq<Ptp>): u8
    requires |r.tree.ptps| == |r.ports| == |cistRow| && r.out < |r.ports|
  {
    Roles.UpdatedTree(r.tree, r.ports, cistRow).ptps[r.out].designatedTimes.hops
  }

  /** A disabled port holds no information after a run. */
  lemma EnabledWhenAccepting(r: Relay)
    requires Accepts(r)
    ensures r.col.prt.portEnabled.On?
  {
    H.RunStops(r.col, r.k, r.cfg);
    PIT.RestIsFramed(r.col, r.k, r.cfg);
  }

  /** What every port transmits once an internal port with hops left is the Root Port. */
  lemma InternalRootSpendsHop(tree: Tree, ports: seq<Port>, cistRow: seq<Ptp>, i: nat, out: nat)
    requires |tree.ptps| == |ports| == |cistRow| && i < |ports| && out < |ports|
    requires Roles.RootOf(tree, ports).index == Some(i) && ports[i].rcvdInternal.On? && tree.ptps[i].portTimes.hops > 0
    ensures Roles.UpdatedTree(tree, ports, cistRow).ptps[out].designatedTimes.hops == tree.ptps[i].portTimes.hops - 1
  {
    var c := Roles.RootOf(tree, ports);
    var times := Roles.NextRootTimes(tree, ports, c.index);
    var p := Roles.WithDesignated(tree.ptps[out], ports[out], c.vec, times, tree.bridgeId, tree.mstid == 0);
    Roles.RoleKeepsRest(p, ports[out], cistRow[out], c.index == Some(out), tree.bridgeId, tree.mstid == 0);
  }

  /** Every relay transmits one hop less than it received. */
  lemma RelaySpendsAHop(r: Relay, cistRow: seq<Ptp>)
    requires Selects(r) && |cistRow| == |r.ports|
    ensures MessageHops(r.col, r.k) > 1 && SentHops(r, cistRow) == MessageHops(r.col, r.k) - 1
  {
    EnabledWhenAccepting(r);
    SuperiorRun(r.col, r.k, r.cfg);
    InternalRootSpendsHop(r.tree, r.ports, cistRow, r.port, r.out);
  }

  /** Bridge `s` hears what bridge `r` transmits. */
  ghost predicate Linked(r: Relay, row: seq<Ptp>, s: Relay) {
    && Selects(r) && |row| == |r.ports| && s.k < |s.col.ptps|
    && MessageHops(s.col, s.k) == SentHops(r, row)
  }

  /** A chain of bridges: each accepts the message, and each but the last relays it to the next. */
  ghost predicate Chain(rs: seq<Relay>, rows: seq<seq<Ptp>>) {
    && |rs| == |rows| > 0 && Accepts(rs[0])
    && (|rs| > 1 ==> Linked(rs[0], rows[0], rs[1]) && Chain(rs[1..], rows[1..]))
  }

  lemma AcceptedHasHopsLeft(r: Relay)
    requires Accepts(r)
    ensures MessageHops(r.col, r.k) > 1
  {
    EnabledWhenAccepting(r);
    SuperiorRun(r.col, r.k, r.cfg);
  }

  /** Information first sent with `h` remaining hops is accepted by at most `h - 1` bridges in a row. */
  lemma {:induction false} HopsBoundPropagation(rs: seq<Relay>, rows: seq<seq<Ptp>>)
    requires Chain(rs, rows)
    ensures |rs| <= MessageHops(rs[0].col, rs[0].k) - 1
    decreases |rs|
  {
    if |rs| == 1 {
      AcceptedHasHopsLeft(rs[0]);
    } else {
      RelaySpendsAHop(rs[0], rows[0]);
      HopsBoundPropagation(rs[1..], rows[1..]);
    }
  }
}
