/** The Topology Change state machine (section 13.36) and the cached `topology_change` flag of a tree. */
module TopologyChange {
  import opened Types

  /** What the machine works on: a tree with its row, the port, and the trace of outputs. */
  datatype Ctx = Ctx(tree: Tree, prt: Port, out: seq<Output>)

  /** Values the machine only reads: the CIST Hello Time and Forward Delay of the port, and the protocol version. */
  datatype Env = Env(hello: u8, forwardDelay: u8, rstp: bool)

  function EnvOf(cfg: Config, cistPtp: Ptp): Env {
    Env(cistPtp.portTimes.hello, cistPtp.designatedTimes.forwardDelay, RstpVersion(cfg))
  }

  function Put(c: Ctx, i: nat, p: Ptp): (r: Ctx)
    requires i < |c.tree.ptps|
    ensures |r.tree.ptps| == |c.tree.ptps| && r.tree.ptps[i] == p
  {
    c.(tree := c.tree.(ptps := c.tree.ptps[i := p]))
  }

  // ---- The cached flag ----

  predicate SomeTcWhile(ptps: seq<Ptp>) {
    exists j :: 0 <= j < |ptps| && ptps[j].tcWhile != 0
  }

  /** The flag tells whether some timer of the tree is running. */
  ghost predicate FlagOk(tree: Tree) {
    tree.topologyChange <==> SomeTcWhile(tree.ptps)
  }

  /** `set_TopologyChange(tree, true, port)`. */
  function RaiseFlag(tree: Tree): Tree {
    tree.(topologyChange := true, timeSinceTc := 0,
          tcCount := if tree.topologyChange then tree.tcCount else (tree.tcCount + 1) % 0x1_0000_0000)
  }

  /** `set_TopologyChange(tree, false, port)`: some timer has just run out, look at the others. */
  function RecheckFlag(tree: Tree): Tree {
    if !tree.topologyChange then tree
    else if SomeTcWhile(tree.ptps) then tree.(timeSinceTc := 0)
    else tree.(topologyChange := false)
  }

  /** The loop of `set_TopologyChange`. */
  method SetTopologyChange(b: Bridge, t: nat, hint: bool)
    requires b.Valid() && t < |b.trees|
    modifies b`trees
    ensures b.trees == old(b.trees)[t := if hint then RaiseFlag(old(b.trees[t])) else RecheckFlag(old(b.trees[t]))]
  {
    var tree := b.trees[t];
    if hint {
      var count := if !tree.topologyChange then (tree.tcCount + 1) % 0x1_0000_0000 else tree.tcCount;
      b.trees := b.trees[t := tree.(topologyChange := true, timeSinceTc := 0, tcCount := count)];
      return;
    }
    if !tree.topologyChange {
      assert b.trees == b.trees[t := tree];
      return;
    }
    b.trees := b.trees[t := tree.(topologyChange := false)];
    for j := 0 to |tree.ptps|
      invariant b.trees == old(b.trees)[t := tree.(topologyChange := false)]
      invariant forall k :: 0 <= k < j ==> tree.ptps[k].tcWhile == 0
    {
      if tree.ptps[j].tcWhile != 0 {
        b.trees := b.trees[t := tree.(topologyChange := true, timeSinceTc := 0)];
        return;
      }
    }
  }

  // ---- Actions ----

  /** `newTcWhile` (section 13.26.5). */
  function NewTcWhile(c: Ctx, i: nat, env: Env): (r: Ctx)
    requires i < |c.tree.ptps|
    ensures |r.tree.ptps| == |c.tree.ptps|
  {
    var p := c.tree.ptps[i];
    if p.tcWhile != 0 then c
    else if c.prt.sendRSTP.On? then
      var d := Put(c, i, p.(tcWhile := env.hello + 1));
      d.(tree := RaiseFlag(d.tree), prt := if p.mstid == 0 then c.prt.(newInfo := On) else c.prt.(newInfoMsti := On))
    else
      var d := Put(c, i, p.(tcWhile := c.tree.rootTimes.maxAge + c.tree.rootTimes.forwardDelay));
      d.(tree := RaiseFlag(d.tree))
  }

  /** `set_fdbFlush`: flushing is synchronous, so the request is over when the routine returns; an STP bridge
      shortens the ageing time instead. */
  function SetFdbFlush(c: Ctx, i: nat, env: Env, port: nat): (r: Ctx)
    requires i < |c.tree.ptps|
    ensures |r.tree.ptps| == |c.tree.ptps|
  {
    var d := Put(c, i, c.tree.ptps[i].(fdbFlush := Off));
    if c.prt.operEdge.On? || c.prt.deleted.On? then d
    else if env.rstp then d.(out := c.out + [FlushFids(port, c.tree.mstid)])
    else d.(prt := c.prt.(rapidAgeingWhile := env.forwardDelay), out := c.out + [SetAgeing(port, env.forwardDelay)])
  }

  /** `setTcPropTree` (section 13.26.17). */
  function SetTcPropTree(c: Ctx, i: nat): (r: Ctx)
    requires i < |c.tree.ptps|
    ensures |r.tree.ptps| == |c.tree.ptps|
  {
    if c.prt.restrictedTcn.On? then c
    else c.(tree := c.tree.(ptps := seq(|c.tree.ptps|, j requires 0 <= j < |c.tree.ptps| =>
                                          if j == i then c.tree.ptps[j] else c.tree.ptps[j].(tcProp := On))))
  }

  /** A received topology change is taken note of; on the CIST the notification is consumed and acknowledged. */
  function Noticed(c: Ctx, i: nat): (r: Ctx)
    requires i < |c.tree.ptps|
    ensures |r.tree.ptps| == |c.tree.ptps|
  {
    var p := c.tree.ptps[i];
    var d := Put(c, i, p.(rcvdTc := Off));
    if p.mstid != 0 then d
    else d.(prt := d.prt.(rcvdTcn := Off, tcAck := if p.role == RoleDesignated then On else d.prt.tcAck))
  }

  function StopTcWhile(c: Ctx, i: nat): (r: Ctx)
    requires i < |c.tree.ptps|
    ensures |r.tree.ptps| == |c.tree.ptps|
  {
    var d := Put(c, i, c.tree.ptps[i].(tcWhile := 0));
    d.(tree := RecheckFlag(d.tree))
  }

  function Enter(c0: Ctx, i: nat, x: TcsmState, env: Env, port: nat): (r: Ctx)
    requires i < |c0.tree.ptps|
    ensures |r.tree.ptps| == |c0.tree.ptps|
  {
    var c := Put(c0, i, c0.tree.ptps[i].(tcsm := x));
    var p := c.tree.ptps[i];
    var cist := p.mstid == 0;
    match x
    case TcInactive =>
      var d := StopTcWhile(SetFdbFlush(c, i, env, port), i);
      if cist then d.(prt := d.prt.(tcAck := Off)) else d
    case TcLearning =>
      var d := Put(c, i, p.(rcvdTc := Off, tcProp := Off));
      if cist then d.(prt := d.prt.(rcvdTcn := Off, rcvdTcAck := Off)) else d
    case TcDetected =>
      var d := SetTcPropTree(NewTcWhile(c, i, env), i);
      d.(prt := if cist then d.prt.(newInfo := On) else d.prt.(newInfoMsti := On))
    case TcNotifiedTcn => NewTcWhile(c, i, env)
    case TcNotifiedTc => SetTcPropTree(Noticed(c, i), i)
    case TcPropagating =>
      var d := SetFdbFlush(NewTcWhile(c, i, env), i, env, port);
      Put(d, i, d.tree.ptps[i].(tcProp := Off))
    case TcAcknowledged =>
      var d := StopTcWhile(c, i);
      d.(prt := d.prt.(rcvdTcAck := Off))
    case TcActive => c
  }

  // ---- Transitions ----

  predicate ActivePort(p: Ptp) {
    p.role == RoleRoot || p.role == RoleDesignated || p.role == RoleMaster
  }

  function Target(p: Ptp, prt: Port): Option<TcsmState> {
    match p.tcsm
    case TcInactive => if p.learn.On? && p.fdbFlush.Off? then Some(TcLearning) else None
    case TcLearning =>
      if ActivePort(p) && p.forward.On? && prt.operEdge.Off? then Some(TcDetected)
      else if p.rcvdTc.On? || prt.rcvdTcn.On? || prt.rcvdTcAck.On? || p.tcProp.On? then Some(TcLearning)
      else if !ActivePort(p) && p.learn.Off? && p.learning.Off? then Some(TcInactive)
      else None
    case TcNotifiedTcn => Some(TcNotifiedTc)
    case TcDetected | TcNotifiedTc | TcPropagating | TcAcknowledged => Some(TcActive)
    case TcActive =>
      if !ActivePort(p) || prt.operEdge.On? then Some(TcLearning)
      else if prt.rcvdTcn.On? then Some(TcNotifiedTcn)
      else if p.rcvdTc.On? then Some(TcNotifiedTc)
      else if p.tcProp.On? then Some(TcPropagating)
      else if prt.rcvdTcAck.On? then Some(TcAcknowledged)
      else None
  }

  /** On an MSTI only the acknowledgement is ever consumed, and only by an active port; so there are states from which
      the machine goes round for ever. */
  predicate Loops(p: Ptp, prt: Port) {
    var open := ActivePort(p) && prt.operEdge.Off?;
    var stuck := prt.rcvdTcn.On? || prt.rcvdTcAck.On?;
    && p.mstid != 0
    && match p.tcsm
       case TcInactive => p.learn.On? && p.fdbFlush.Off? && if open && p.forward.On? then prt.rcvdTcn.On? else stuck
       case TcLearning => if open && p.forward.On? then prt.rcvdTcn.On? else stuck
       case _ => if open then prt.rcvdTcn.On? else stuck
  }

  function One(b: bool): nat {
    if b then 1 else 0
  }

  function Measure(p: Ptp, prt: Port): nat {
    var flags := One(p.rcvdTc.On?) + One(p.tcProp.On?) + One(prt.rcvdTcAck.On?)
                 + One(prt.rcvdTcn.On? && p.tcsm != TcNotifiedTcn);
    10 * flags +
    match p.tcsm
    case TcInactive => if p.learn.Off? then 0 else if ActivePort(p) && prt.operEdge.Off? then 6 else 2
    case TcLearning => if ActivePort(p) && prt.operEdge.Off? then 5 else 1
    case TcNotifiedTcn => 6
    case TcActive => if ActivePort(p) && prt.operEdge.Off? then 0 else 3
    case TcDetected | TcNotifiedTc | TcPropagating | TcAcknowledged => 4
  }

  predicate OwnFrame(p: Ptp, q: Ptp) {
    q == p.(tcsm := q.tcsm, tcWhile := q.tcWhile, fdbFlush := q.fdbFlush, rcvdTc := q.rcvdTc, tcProp := q.tcProp)
  }

  predicate PortFrame(a: Port, b: Port) {
    b == a.(newInfo := b.newInfo, newInfoMsti := b.newInfoMsti, tcAck := b.tcAck, rcvdTcn := b.rcvdTcn,
            rcvdTcAck := b.rcvdTcAck, rapidAgeingWhile := b.rapidAgeingWhile)
  }

  /** Besides its own variables the machine touches the flag of the tree and `tcProp` of the other ports. */
  ghost predicate Framed(c: Ctx, r: Ctx, i: nat)
    requires i < |c.tree.ptps|
  {
    && r.tree == c.tree.(ptps := r.tree.ptps, timeSinceTc := r.tree.timeSinceTc, tcCount := r.tree.tcCount,
                         topologyChange := r.tree.topologyChange)
    && |r.tree.ptps| == |c.tree.ptps| && PortFrame(c.prt, r.prt) && OwnFrame(c.tree.ptps[i], r.tree.ptps[i])
    && forall j :: 0 <= j < |c.tree.ptps| && j != i ==>
         r.tree.ptps[j] == c.tree.ptps[j].(tcProp := r.tree.ptps[j].tcProp)
  }

  lemma FramesCompose(a: Ctx, b: Ctx, c: Ctx, i: nat)
    requires i < |a.tree.ptps| && Framed(a, b, i) && Framed(b, c, i)
    ensures Framed(a, c, i)
  {
    forall j | 0 <= j < |a.tree.ptps| && j != i
      ensures c.tree.ptps[j] == a.tree.ptps[j].(tcProp := c.tree.ptps[j].tcProp)
    {
      assert b.tree.ptps[j] == a.tree.ptps[j].(tcProp := b.tree.ptps[j].tcProp);
      assert c.tree.ptps[j] == b.tree.ptps[j].(tcProp := c.tree.ptps[j].tcProp);
    }
  }

  lemma PutFramed(c: Ctx, i: nat, p: Ptp)
    requires i < |c.tree.ptps| && OwnFrame(c.tree.ptps[i], p)
    ensures Framed(c, Put(c, i, p), i)
  {
  }

  lemma NewTcWhileFramed(c: Ctx, i: nat, env: Env)
    requires i < |c.tree.ptps|
    ensures var r := NewTcWhile(c, i, env);
            && Framed(c, r, i) && r.tree.ptps[i] == c.tree.ptps[i].(tcWhile := r.tree.ptps[i].tcWhile)
            && r.prt == c.prt.(newInfo := r.prt.newInfo, newInfoMsti := r.prt.newInfoMsti)
  {
    var r := NewTcWhile(c, i, env);
    if c.tree.ptps[i].tcWhile == 0 {
      var d := Put(c, i, c.tree.ptps[i].(tcWhile := r.tree.ptps[i].tcWhile));
      PutFramed(c, i, d.tree.ptps[i]);
      assert r.tree == RaiseFlag(d.tree);
    }
  }

  lemma StopTcWhileFramed(c: Ctx, i: nat)
    requires i < |c.tree.ptps|
    ensures var r := StopTcWhile(c, i);
            Framed(c, r, i) && r.tree.ptps[i] == c.tree.ptps[i].(tcWhile := 0) && r.prt == c.prt
  {
    PutFramed(c, i, c.tree.ptps[i].(tcWhile := 0));
  }

  lemma SetFdbFlushFramed(c: Ctx, i: nat, env: Env, port: nat)
    requires i < |c.tree.ptps|
    ensures var r := SetFdbFlush(c, i, env, port);
            && Framed(c, r, i) && r.tree.ptps[i] == c.tree.ptps[i].(fdbFlush := Off)
            && r.prt == c.prt.(rapidAgeingWhile := r.prt.rapidAgeingWhile)
  {
    PutFramed(c, i, c.tree.ptps[i].(fdbFlush := Off));
  }

  lemma SetTcPropTreeFramed(c: Ctx, i: nat)
    requires i < |c.tree.ptps|
    ensures var r := SetTcPropTree(c, i);
            Framed(c, r, i) && r.tree.ptps[i] == c.tree.ptps[i] && r.prt == c.prt
  {
  }

  /** The effect of entering `x` on the variables that control the machine. */
  predicate Controlled(c: Ctx, r: Ctx, i: nat, x: TcsmState)
    requires i < |c.tree.ptps| == |r.tree.ptps|
  {
    var p, q := c.tree.ptps[i], r.tree.ptps[i];
    && q.tcsm == x
    && q.rcvdTc == (if x == TcLearning || x == TcNotifiedTc then Off else p.rcvdTc)
    && q.tcProp == (if x == TcLearning || x == TcPropagating then Off else p.tcProp)
    && r.prt.rcvdTcn == (if p.mstid == 0 && (x == TcLearning || x == TcNotifiedTc) then Off else c.prt.rcvdTcn)
    && r.prt.rcvdTcAck == (if (p.mstid == 0 && x == TcLearning) || x == TcAcknowledged then Off else c.prt.rcvdTcAck)
    && q.fdbFlush == (if x == TcInactive || x == TcPropagating then Off else p.fdbFlush)
  }

  lemma EnterControls(c0: Ctx, i: nat, x: TcsmState, env: Env, port: nat)
    requires i < |c0.tree.ptps|
    ensures Framed(c0, Enter(c0, i, x, env, port), i)
    ensures Controlled(c0, Enter(c0, i, x, env, port), i, x)
  {
    var p := c0.tree.ptps[i].(tcsm := x);
    PutFramed(c0, i, p);
    var c := Put(c0, i, p);
    if x == TcInactive {
      SetFdbFlushFramed(c, i, env, port);
      var d := SetFdbFlush(c, i, env, port);
      StopTcWhileFramed(d, i);
      FramesCompose(c, d, StopTcWhile(d, i), i);
      FramesCompose(c0, c, StopTcWhile(d, i), i);
    } else if x == TcLearning {
      PutFramed(c, i, p.(rcvdTc := Off, tcProp := Off));
      FramesCompose(c0, c, Put(c, i, p.(rcvdTc := Off, tcProp := Off)), i);
    } else if x == TcDetected {
      NewTcWhileFramed(c, i, env);
      var d := NewTcWhile(c, i, env);
      SetTcPropTreeFramed(d, i);
      FramesCompose(c, d, SetTcPropTree(d, i), i);
      FramesCompose(c0, c, SetTcPropTree(d, i), i);
    } else if x == TcNotifiedTcn {
      NewTcWhileFramed(c, i, env);
      FramesCompose(c0, c, NewTcWhile(c, i, env), i);
    } else if x == TcNotifiedTc {
      NotifiedTcControls(c0, i, env, port);
    } else if x == TcPropagating {
      PropagatingControls(c0, i, env, port);
    } else if x == TcAcknowledged {
      StopTcWhileFramed(c, i);
      FramesCompose(c0, c, StopTcWhile(c, i), i);
    }
  }

  lemma NotifiedTcControls(c0: Ctx, i: nat, env: Env, port: nat)
    requires i < |c0.tree.ptps|
    ensures Framed(c0, Enter(c0, i, TcNotifiedTc, env, port), i)
    ensures Controlled(c0, Enter(c0, i, TcNotifiedTc, env, port), i, TcNotifiedTc)
  {
    var p := c0.tree.ptps[i].(tcsm := TcNotifiedTc);
    var c := Put(c0, i, p);
    PutFramed(c0, i, p.(rcvdTc := Off));
    var tcAck := if p.role == RoleDesignated then On else c.prt.tcAck;
    var prt := if p.mstid == 0 then c.prt.(rcvdTcn := Off, tcAck := tcAck) else c.prt;
    var d := Put(c, i, p.(rcvdTc := Off)).(prt := prt);
    assert d == Put(c0, i, p.(rcvdTc := Off)).(prt := prt);
    SetTcPropTreeFramed(d, i);
    FramesCompose(c0, d, SetTcPropTree(d, i), i);
    assert Enter(c0, i, TcNotifiedTc, env, port) == SetTcPropTree(d, i);
  }

  lemma PropagatingControls(c0: Ctx, i: nat, env: Env, port: nat)
    requires i < |c0.tree.ptps|
    ensures Framed(c0, Enter(c0, i, TcPropagating, env, port), i)
    ensures Controlled(c0, Enter(c0, i, TcPropagating, env, port), i, TcPropagating)
  {
    var p := c0.tree.ptps[i].(tcsm := TcPropagating);
    PutFramed(c0, i, p);
    var c := Put(c0, i, p);
    NewTcWhileFramed(c, i, env);
    var d := NewTcWhile(c, i, env);
    SetFdbFlushFramed(d, i, env, port);
    var e := SetFdbFlush(d, i, env, port);
    FramesCompose(c, d, e, i);
    FramesCompose(c0, c, e, i);
    PutFramed(e, i, e.tree.ptps[i].(tcProp := Off));
    FramesCompose(c0, e, Put(e, i, e.tree.ptps[i].(tcProp := Off)), i);
  }

  lemma ControlledDecreases(c: Ctx, r: Ctx, i: nat)
    requires i < |c.tree.ptps| && !Loops(c.tree.ptps[i], c.prt) && Target(c.tree.ptps[i], c.prt).Some?
    requires Framed(c, r, i) && Controlled(c, r, i, Target(c.tree.ptps[i], c.prt).value)
    ensures Measure(r.tree.ptps[i], r.prt) < Measure(c.tree.ptps[i], c.prt) && !Loops(r.tree.ptps[i], r.prt)
  {
  }

  lemma StepDecreases(c: Ctx, i: nat, env: Env, port: nat)
    requires i < |c.tree.ptps| && !Loops(c.tree.ptps[i], c.prt) && Target(c.tree.ptps[i], c.prt).Some?
    ensures var r := Enter(c, i, Target(c.tree.ptps[i], c.prt).value, env, port);
            Measure(r.tree.ptps[i], r.prt) < Measure(c.tree.ptps[i], c.prt) && !Loops(r.tree.ptps[i], r.prt)
  {
    var x := Target(c.tree.ptps[i], c.prt).value;
    EnterControls(c, i, x, env, port);
    ControlledDecreases(c, Enter(c, i, x, env, port), i);
  }

  function Rest(c: Ctx, i: nat, env: Env, port: nat): (r: Ctx)
    requires i < |c.tree.ptps| && !Loops(c.tree.ptps[i], c.prt)
    ensures |r.tree.ptps| == |c.tree.ptps|
    decreases Measure(c.tree.ptps[i], c.prt)
  {
    var x := Target(c.tree.ptps[i], c.prt);
    if x.None? then c
    else
      StepDecreases(c, i, env, port);
      Rest(Enter(c, i, x.value, env, port), i, env, port)
  }

  /** At rest the machine is INACTIVE, LEARNING or ACTIVE, and no notification is left unhandled. */
  lemma {:induction false} RestComesToRest(c: Ctx, i: nat, env: Env, port: nat)
    requires i < |c.tree.ptps| && !Loops(c.tree.ptps[i], c.prt)
    ensures var r := Rest(c, i, env, port);
            var p := r.tree.ptps[i];
            && Target(p, r.prt).None? && (p.tcsm == TcInactive || p.tcsm == TcLearning || p.tcsm == TcActive)
            && (p.tcsm != TcInactive ==> p.rcvdTc.Off? && p.tcProp.Off? && r.prt.rcvdTcn.Off? && r.prt.rcvdTcAck.Off?)
            && (p.tcsm == TcActive ==> ActivePort(p) && r.prt.operEdge.Off?)
            && (p.tcsm == TcInactive ==> p.learn.Off? || p.fdbFlush.On?)
    decreases Measure(c.tree.ptps[i], c.prt)
  {
    var x := Target(c.tree.ptps[i], c.prt);
    if x.Some? {
      StepDecreases(c, i, env, port);
      RestComesToRest(Enter(c, i, x.value, env, port), i, env, port);
    }
  }

  lemma {:induction false} RestIsFramed(c: Ctx, i: nat, env: Env, port: nat)
    requires i < |c.tree.ptps| && !Loops(c.tree.ptps[i], c.prt)
    ensures Framed(c, Rest(c, i, env, port), i)
    decreases Measure(c.tree.ptps[i], c.prt)
  {
    var x := Target(c.tree.ptps[i], c.prt);
    if x.Some? {
      StepDecreases(c, i, env, port);
      EnterControls(c, i, x.value, env, port);
      var next := Enter(c, i, x.value, env, port);
      RestIsFramed(next, i, env, port);
      FramesCompose(c, next, Rest(next, i, env, port), i);
    }
  }

  // ---- When the machine comes to rest ----

  /** The machine after `n` transitions, or where it came to rest before. */
  ghost function Iterated(c: Ctx, i: nat, env: Env, port: nat, n: nat): (r: Ctx)
    requires i < |c.tree.ptps|
    ensures |r.tree.ptps| == |c.tree.ptps|
    decreases n
  {
    var x := Target(c.tree.ptps[i], c.prt);
    if n == 0 || x.None? then c else Iterated(Enter(c, i, x.value, env, port), i, env, port, n - 1)
  }

  ghost predicate AtRestAfter(c: Ctx, i: nat, env: Env, port: nat, n: nat)
    requires i < |c.tree.ptps|
  {
    var r := Iterated(c, i, env, port, n);
    Target(r.tree.ptps[i], r.prt).None?
  }

  lemma ControlledLoops(c: Ctx, r: Ctx, i: nat)
    requires i < |c.tree.ptps| && Loops(c.tree.ptps[i], c.prt) && Target(c.tree.ptps[i], c.prt).Some?
    requires Framed(c, r, i) && Controlled(c, r, i, Target(c.tree.ptps[i], c.prt).value)
    ensures Loops(r.tree.ptps[i], r.prt)
  {
  }

  lemma LoopingGoesOn(p: Ptp, prt: Port)
    requires Loops(p, prt)
    ensures Target(p, prt).Some?
  {
  }

  lemma {:induction false} LoopingNeverRests(c: Ctx, i: nat, env: Env, port: nat, n: nat)
    requires i < |c.tree.ptps| && Loops(c.tree.ptps[i], c.prt)
    ensures !AtRestAfter(c, i, env, port, n)
    decreases n
  {
    LoopingGoesOn(c.tree.ptps[i], c.prt);
    if n > 0 {
      var x := Target(c.tree.ptps[i], c.prt).value;
      EnterControls(c, i, x, env, port);
      ControlledLoops(c, Enter(c, i, x, env, port), i);
      LoopingNeverRests(Enter(c, i, x, env, port), i, env, port, n - 1);
    }
  }

  lemma {:induction false} OthersRest(c: Ctx, i: nat, env: Env, port: nat) returns (n: nat)
    requires i < |c.tree.ptps| && !Loops(c.tree.ptps[i], c.prt)
    ensures AtRestAfter(c, i, env, port, n)
    decreases Measure(c.tree.ptps[i], c.prt)
  {
    n := 0;
    var x := Target(c.tree.ptps[i], c.prt);
    if x.Some? {
      StepDecreases(c, i, env, port);
      n := OthersRest(Enter(c, i, x.value, env, port), i, env, port);
      n := n + 1;
    }
  }

  /** The machine comes to rest if and only if its state, role and flags are not among those that loop: always on the
      CIST, and on an MSTI unless a port-wide flag is up that the states ahead do not consume. */
  lemma RestsIff(c: Ctx, i: nat, env: Env, port: nat)
    requires i < |c.tree.ptps|
    ensures (exists n: nat :: AtRestAfter(c, i, env, port, n)) <==> !Loops(c.tree.ptps[i], c.prt)
  {
    if Loops(c.tree.ptps[i], c.prt) {
      forall n: nat
        ensures !AtRestAfter(c, i, env, port, n)
      {
        LoopingNeverRests(c, i, env, port, n);
      }
    } else {
      var n := OthersRest(c, i, env, port);
    }
  }

  // ---- The dry run ----

  /** The test of its own that `TCSM_to_LEARNING` makes in a dry run. */
  predicate LearningDry(p: Ptp, prt: Port) {
    || p.tcsm != TcLearning || p.rcvdTc.On? || p.tcProp.On?
    || (p.mstid == 0 && (prt.rcvdTcn.On? || prt.rcvdTcAck.On?))
  }

  /** That test is exact for every port: it holds if and only if the entry actions change something. */
  lemma LearningDryIffChange(c: Ctx, i: nat, env: Env, port: nat)
    requires i < |c.tree.ptps|
    ensures LearningDry(c.tree.ptps[i], c.prt) <==> Enter(c, i, TcLearning, env, port) != c
  {
    var r := Enter(c, i, TcLearning, env, port);
    assert r.tree.ptps[i] == c.tree.ptps[i].(tcsm := TcLearning, rcvdTc := Off, tcProp := Off);
    if !LearningDry(c.tree.ptps[i], c.prt) {
      assert r.tree.ptps == c.tree.ptps;
    }
  }

  /** What `TCSM_run` reports in a dry run. */
  predicate Dry(p: Ptp, prt: Port) {
    match p.tcsm
    case TcInactive => p.learn.On? && p.fdbFlush.Off?
    case TcLearning =>
      if ActivePort(p) && p.forward.On? && prt.operEdge.Off? then true
      else if p.rcvdTc.On? || prt.rcvdTcn.On? || prt.rcvdTcAck.On? || p.tcProp.On? then LearningDry(p, prt)
      else !ActivePort(p) && p.learn.Off? && p.learning.Off?
    case TcActive =>
      || !ActivePort(p) || prt.operEdge.On? || prt.rcvdTcn.On? || p.rcvdTc.On? || p.tcProp.On? || prt.rcvdTcAck.On?
    case _ => true
  }

  /** The dry run differs from the actual run in exactly one family: an MSTI in LEARNING whose port-wide flags are up.
      It reports no change there, and the actual run does not end. */
  lemma DryIsWrongIff(p: Ptp, prt: Port)
    ensures (Dry(p, prt) <==> Target(p, prt).Some?) <==>
            !(&& p.mstid != 0 && p.tcsm == TcLearning && !(ActivePort(p) && p.forward.On? && prt.operEdge.Off?)
              && p.rcvdTc.Off? && p.tcProp.Off? && (prt.rcvdTcn.On? || prt.rcvdTcAck.On?))
    ensures !(Dry(p, prt) <==> Target(p, prt).Some?) ==> !Dry(p, prt) && Loops(p, prt)
  {
  }

  /** Wherever the machine comes to rest, the dry run reports a change exactly when the run makes one. */
  lemma DryIffChange(c: Ctx, i: nat, env: Env, port: nat)
    requires i < |c.tree.ptps| && !Loops(c.tree.ptps[i], c.prt)
    ensures Dry(c.tree.ptps[i], c.prt) <==> Rest(c, i, env, port) != c
  {
    DryIsWrongIff(c.tree.ptps[i], c.prt);
    if Target(c.tree.ptps[i], c.prt).Some? {
      RestLowersMeasure(c, i, env, port);
    }
  }

  lemma {:induction false} RestLowersMeasure(c: Ctx, i: nat, env: Env, port: nat)
    requires i < |c.tree.ptps| && !Loops(c.tree.ptps[i], c.prt) && Target(c.tree.ptps[i], c.prt).Some?
    ensures var r := Rest(c, i, env, port); Measure(r.tree.ptps[i], r.prt) < Measure(c.tree.ptps[i], c.prt)
    decreases Measure(c.tree.ptps[i], c.prt)
  {
    StepDecreases(c, i, env, port);
    var next := Enter(c, i, Target(c.tree.ptps[i], c.prt).value, env, port);
    if Target(next.tree.ptps[i], next.prt).Some? {
      RestLowersMeasure(next, i, env, port);
    }
  }

  // ---- The flag is exact and the counter counts its rises ----

  /** A rise of the flag from one tree to the next. */
  function Rise(a: Tree, b: Tree): nat {
    if !a.topologyChange && b.topologyChange then 1 else 0
  }

  /** The 32-bit counter has advanced by `n`. */
  predicate Advanced(a: u32, n: nat, b: u32) {
    b == (a + n) % 0x1_0000_0000
  }

  lemma AdvancesCompose(a: u32, m: nat, b: u32, n: nat, c: u32)
    requires Advanced(a, m, b) && Advanced(b, n, c)
    ensures Advanced(a, m + n, c)
  {
  }

  ghost predicate FlagStep(a: Tree, b: Tree) {
    FlagOk(b) && Advanced(a.tcCount, Rise(a, b), b.tcCount)
  }

  /** Starting a timer keeps the flag exact exactly when the timer really runs, or another one does: the STP value
      Max Age + Forward Delay of the Root must not be 0. */
  lemma NewTcWhileKeepsFlagIff(c: Ctx, i: nat, env: Env)
    requires i < |c.tree.ptps| && FlagOk(c.tree)
    ensures FlagOk(NewTcWhile(c, i, env).tree) <==>
            || SomeTcWhile(c.tree.ptps) || c.prt.sendRSTP.On?
            || c.tree.rootTimes.maxAge + c.tree.rootTimes.forwardDelay > 0
    ensures var r := NewTcWhile(c, i, env).tree; Advanced(c.tree.tcCount, Rise(c.tree, r), r.tcCount)
  {
    var p, r := c.tree.ptps[i], NewTcWhile(c, i, env);
    if p.tcWhile == 0 {
      assert r.tree.topologyChange;
      var d := if c.prt.sendRSTP.On? then env.hello + 1 else c.tree.rootTimes.maxAge + c.tree.rootTimes.forwardDelay;
      assert r.tree.ptps == c.tree.ptps[i := p.(tcWhile := d)];
      if SomeTcWhile(c.tree.ptps) {
        var j :| 0 <= j < |c.tree.ptps| && c.tree.ptps[j].tcWhile != 0;
        assert r.tree.ptps[j].tcWhile != 0;
      } else if d > 0 {
        assert r.tree.ptps[i].tcWhile != 0;
      }
    }
  }

  lemma StopTcWhileKeepsFlag(c: Ctx, i: nat)
    requires i < |c.tree.ptps| && FlagOk(c.tree)
    ensures FlagStep(c.tree, StopTcWhile(c, i).tree)
  {
    var d := Put(c, i, c.tree.ptps[i].(tcWhile := 0));
    if SomeTcWhile(d.tree.ptps) {
      var j :| 0 <= j < |d.tree.ptps| && d.tree.ptps[j].tcWhile != 0;
      assert c.tree.ptps[j].tcWhile != 0;
    }
  }

  /** The timers, the flag and the counter are the same. */
  ghost predicate SameTimers(a: Tree, b: Tree) {
    && |a.ptps| == |b.ptps| && a.topologyChange == b.topologyChange && a.tcCount == b.tcCount
    && forall j :: 0 <= j < |a.ptps| ==> a.ptps[j].tcWhile == b.ptps[j].tcWhile
  }

  lemma SameTimersKeepFlag(a: Tree, b: Tree, c: Tree)
    requires SameTimers(b, c) && FlagStep(a, b)
    ensures FlagStep(a, c)
  {
    if SomeTcWhile(b.ptps) {
      var j :| 0 <= j < |b.ptps| && b.ptps[j].tcWhile != 0;
      assert c.ptps[j].tcWhile != 0;
    }
  }

  /** A timer started now really runs: the STP value is not 0, or it is not used. */
  predicate TimersRun(tree: Tree, prt: Port) {
    prt.sendRSTP.On? || tree.rootTimes.maxAge + tree.rootTimes.forwardDelay > 0
  }

  lemma StoppingKeepsFlag(c: Ctx, i: nat, x: TcsmState, env: Env, port: nat)
    requires i < |c.tree.ptps| && FlagOk(c.tree) && (x == TcInactive || x == TcAcknowledged)
    ensures FlagStep(c.tree, Enter(c, i, x, env, port).tree)
  {
    var d := Put(c, i, c.tree.ptps[i].(tcsm := x));
    var e := if x == TcInactive then SetFdbFlush(d, i, env, port) else d;
    SameTimersKeepFlag(c.tree, c.tree, e.tree);
    StopTcWhileKeepsFlag(e, i);
    assert Enter(c, i, x, env, port).tree == StopTcWhile(e, i).tree;
  }

  lemma StartedTimersKept(c: Ctx, i: nat, x: TcsmState, env: Env, port: nat)
    requires i < |c.tree.ptps| && (x == TcDetected || x == TcNotifiedTcn || x == TcPropagating)
    ensures var e := NewTcWhile(Put(c, i, c.tree.ptps[i].(tcsm := x)), i, env);
            SameTimers(e.tree, Enter(c, i, x, env, port).tree)
  {
    var e := NewTcWhile(Put(c, i, c.tree.ptps[i].(tcsm := x)), i, env);
    if x == TcDetected {
      PropagationKeepsTimers(e, i);
    } else if x == TcPropagating {
      FlushKeepsTimers(e, i, env, port);
    }
  }

  lemma PropagationKeepsTimers(e: Ctx, i: nat)
    requires i < |e.tree.ptps|
    ensures SameTimers(e.tree, SetTcPropTree(e, i).tree)
  {
  }

  lemma FlushKeepsTimers(e: Ctx, i: nat, env: Env, port: nat)
    requires i < |e.tree.ptps|
    ensures var f := SetFdbFlush(e, i, env, port); SameTimers(e.tree, Put(f, i, f.tree.ptps[i].(tcProp := Off)).tree)
  {
  }

  lemma StartingKeepsFlag(c: Ctx, i: nat, x: TcsmState, env: Env, port: nat)
    requires i < |c.tree.ptps| && FlagOk(c.tree) && TimersRun(c.tree, c.prt)
    requires x == TcDetected || x == TcNotifiedTcn || x == TcPropagating
    ensures FlagStep(c.tree, Enter(c, i, x, env, port).tree)
  {
    var d := Put(c, i, c.tree.ptps[i].(tcsm := x));
    SameTimersKeepFlag(c.tree, c.tree, d.tree);
    NewTcWhileKeepsFlagIff(d, i, env);
    StartedTimersKept(c, i, x, env, port);
    SameTimersKeepFlag(c.tree, NewTcWhile(d, i, env).tree, Enter(c, i, x, env, port).tree);
  }

  lemma EnterKeepsFlag(c: Ctx, i: nat, x: TcsmState, env: Env, port: nat)
    requires i < |c.tree.ptps| && FlagOk(c.tree) && TimersRun(c.tree, c.prt)
    ensures FlagStep(c.tree, Enter(c, i, x, env, port).tree)
  {
    match x
    case TcInactive | TcAcknowledged => StoppingKeepsFlag(c, i, x, env, port);
    case TcDetected | TcNotifiedTcn | TcPropagating => StartingKeepsFlag(c, i, x, env, port);
    case TcLearning | TcNotifiedTc | TcActive =>
      OtherEntriesKeepTimers(c, i, x, env, port);
      SameTimersKeepFlag(c.tree, c.tree, Enter(c, i, x, env, port).tree);
  }

  lemma OtherEntriesKeepTimers(c: Ctx, i: nat, x: TcsmState, env: Env, port: nat)
    requires i < |c.tree.ptps| && (x == TcLearning || x == TcNotifiedTc || x == TcActive)
    ensures SameTimers(c.tree, Enter(c, i, x, env, port).tree)
  {
    if x == TcNotifiedTc {
      PropagationKeepsTimers(Noticed(Put(c, i, c.tree.ptps[i].(tcsm := x)), i), i);
    }
  }

  /** Rises of the flag on the way to rest. */
  ghost function RestRises(c: Ctx, i: nat, env: Env, port: nat): nat
    requires i < |c.tree.ptps| && !Loops(c.tree.ptps[i], c.prt)
    decreases Measure(c.tree.ptps[i], c.prt)
  {
    var x := Target(c.tree.ptps[i], c.prt);
    if x.None? then 0
    else
      StepDecreases(c, i, env, port);
      var next := Enter(c, i, x.value, env, port);
      Rise(c.tree, next.tree) + RestRises(next, i, env, port)
  }

  /** One transition of such a run. */
  lemma RestStep(c: Ctx, i: nat, env: Env, port: nat) returns (next: Ctx, k: nat)
    requires i < |c.tree.ptps| && !Loops(c.tree.ptps[i], c.prt) && FlagOk(c.tree) && TimersRun(c.tree, c.prt)
    requires Target(c.tree.ptps[i], c.prt).Some?
    ensures |next.tree.ptps| == |c.tree.ptps| && !Loops(next.tree.ptps[i], next.prt) && TimersRun(next.tree, next.prt)
    ensures Measure(next.tree.ptps[i], next.prt) < Measure(c.tree.ptps[i], c.prt) && FlagOk(next.tree)
    ensures Wraps(c.tree.tcCount, Rise(c.tree, next.tree), next.tree.tcCount, k)
    ensures Rest(c, i, env, port) == Rest(next, i, env, port)
    ensures RestRises(c, i, env, port) == Rise(c.tree, next.tree) + RestRises(next, i, env, port)
  {
    var x := Target(c.tree.ptps[i], c.prt).value;
    StepDecreases(c, i, env, port);
    EnterControls(c, i, x, env, port);
    EnterKeepsFlag(c, i, x, env, port);
    next := Enter(c, i, x, env, port);
    k := AdvancedWraps(c.tree.tcCount, Rise(c.tree, next.tree), next.tree.tcCount);
  }

  /** The 32-bit counter has advanced by `n` and wrapped `k` times. */
  predicate Wraps(a: u32, n: nat, b: u32, k: nat) {
    a + n == b + 0x1_0000_0000 * k
  }

  lemma AdvancedWraps(a: u32, n: nat, b: u32) returns (k: nat)
    requires Advanced(a, n, b)
    ensures Wraps(a, n, b, k)
  {
    k := (a + n) / 0x1_0000_0000;
  }

  lemma WrapsAdvanced(a: u32, n: nat, b: u32, k: nat)
    requires Wraps(a, n, b, k)
    ensures Advanced(a, n, b)
  {
  }

  /** Where a run ends, and the rises on the way. */
  ghost predicate RestOf(c: Ctx, i: nat, env: Env, port: nat, r: Tree, n: nat)
    requires i < |c.tree.ptps| && !Loops(c.tree.ptps[i], c.prt)
  {
    r == Rest(c, i, env, port).tree && n == RestRises(c, i, env, port)
  }

  lemma {:induction false} RestFollows(c: Ctx, i: nat, env: Env, port: nat) returns (r: Tree, n: nat, k: nat)
    requires i < |c.tree.ptps| && !Loops(c.tree.ptps[i], c.prt) && FlagOk(c.tree) && TimersRun(c.tree, c.prt)
    ensures RestOf(c, i, env, port, r, n) && FlagOk(r) && Wraps(c.tree.tcCount, n, r.tcCount, k)
    decreases Measure(c.tree.ptps[i], c.prt)
  {
    r, n, k := c.tree, 0, 0;
    if Target(c.tree.ptps[i], c.prt).Some? {
      var next, once := RestStep(c, i, env, port);
      r, n, k := RestFollows(next, i, env, port);
      n, k := Rise(c.tree, next.tree) + n, once + k;
    }
  }

  lemma RestKeepsFlag(c: Ctx, i: nat, env: Env, port: nat)
    requires i < |c.tree.ptps| && !Loops(c.tree.ptps[i], c.prt) && FlagOk(c.tree) && TimersRun(c.tree, c.prt)
    ensures var r := Rest(c, i, env, port).tree;
            FlagOk(r) && Advanced(c.tree.tcCount, RestRises(c, i, env, port), r.tcCount)
  {
    var r, n, k := RestFollows(c, i, env, port);
    WrapsAdvanced(c.tree.tcCount, n, r.tcCount, k);
  }

  /** The tick of one timer (`PTSM_tick`). */
  ghost function TickTimer(tree: Tree, i: nat): Tree
    requires i < |tree.ptps|
  {
    var p := tree.ptps[i];
    if p.tcWhile == 0 then tree
    else
      var t := tree.(ptps := tree.ptps[i := p.(tcWhile := p.tcWhile - 1)]);
      if p.tcWhile == 1 then RecheckFlag(t) else t
  }

  lemma TickKeepsFlag(tree: Tree, i: nat)
    requires i < |tree.ptps| && FlagOk(tree)
    ensures FlagOk(TickTimer(tree, i)) && TickTimer(tree, i).tcCount == tree.tcCount
            && Rise(tree, TickTimer(tree, i)) == 0
  {
    var p := tree.ptps[i];
    if p.tcWhile > 0 {
      var t := tree.(ptps := tree.ptps[i := p.(tcWhile := p.tcWhile - 1)]);
      if p.tcWhile > 1 { assert t.ptps[i].tcWhile != 0; }
    }
  }

  /** What happens to a tree while the bridge is enabled; `Elsewhere` stands for everything that touches
      neither the timers nor the flag. */
  datatype Event =
    | Tick(i: nat)
    | Begin(i: nat, prt: Port, env: Env)
    | Run(i: nat, prt: Port, env: Env)
    | Elsewhere(tree: Tree)

  ghost predicate Possible(e: Event, tree: Tree) {
    match e
    case Tick(i) => i < |tree.ptps|
    case Begin(i, _, _) => i < |tree.ptps|
    case Run(i, prt, _) => i < |tree.ptps| && TimersRun(tree, prt) && !Loops(tree.ptps[i], prt)
    case Elsewhere(t) => SameTimers(tree, t)
  }

  ghost function After(e: Event, tree: Tree): Tree
    requires Possible(e, tree)
  {
    match e
    case Tick(i) => TickTimer(tree, i)
    case Begin(i, prt, env) => Enter(Ctx(tree, prt, []), i, TcInactive, env, i).tree
    case Run(i, prt, env) => Rest(Ctx(tree, prt, []), i, env, i).tree
    case Elsewhere(t) => t
  }

  ghost function Rises(e: Event, tree: Tree): nat
    requires Possible(e, tree)
  {
    match e
    case Run(i, prt, env) => RestRises(Ctx(tree, prt, []), i, env, i)
    case _ => Rise(tree, After(e, tree))
  }

  ghost predicate History(es: seq<Event>, tree: Tree) {
    es == [] || (Possible(es[0], tree) && History(es[1..], After(es[0], tree)))
  }

  ghost function Last(es: seq<Event>, tree: Tree): Tree
    requires History(es, tree)
  {
    if es == [] then tree else Last(es[1..], After(es[0], tree))
  }

  ghost function TotalRises(es: seq<Event>, tree: Tree): nat
    requires History(es, tree)
  {
    if es == [] then 0 else Rises(es[0], tree) + TotalRises(es[1..], After(es[0], tree))
  }

  lemma EventKeepsFlag(e: Event, tree: Tree)
    requires FlagOk(tree) && Possible(e, tree)
    ensures FlagOk(After(e, tree)) && Advanced(tree.tcCount, Rises(e, tree), After(e, tree).tcCount)
  {
    match e
    case Tick(i) => TickKeepsFlag(tree, i);
    case Begin(i, prt, env) => StoppingKeepsFlag(Ctx(tree, prt, []), i, TcInactive, env, i);
    case Run(i, prt, env) => RestKeepsFlag(Ctx(tree, prt, []), i, env, i);
    case Elsewhere(t) => SameTimersKeepFlag(tree, tree, t);
  }

  /** Over every history the flag tells whether a timer runs, and the counter has advanced by the number of times
      the flag rose (modulo its 32 bits). */
  lemma {:induction false} FlagIsExact(es: seq<Event>, tree: Tree)
    requires FlagOk(tree) && History(es, tree)
    ensures FlagOk(Last(es, tree))
    ensures Advanced(tree.tcCount, TotalRises(es, tree), Last(es, tree).tcCount)
    decreases |es|
  {
    if es != [] {
      EventKeepsFlag(es[0], tree);
      var next := After(es[0], tree);
      FlagIsExact(es[1..], next);
      AdvancesCompose(tree.tcCount, Rises(es[0], tree), next.tcCount, TotalRises(es[1..], next),
                      Last(es[1..], next).tcCount);
    }
  }
}
