/** Networks of bridges: following Root Ports never cycles and leads to the bridge named as Root. */
module Network {
  import opened Types
  import opened Vectors
  import opened Roles
  import opened RoleTheorems

  /** `compute_pcost` (Table 13-3): the cost of a link of `speed` Mb/s. */
  function ComputePcost(speed: int): (c: u32)
    ensures 1 <= c <= MAX_PATH_COST
  {
    if speed > 0 then
      assert speed < 20_000_000 ==> 1 <= 20_000_000 / speed <= 20_000_000;
      if speed < 20_000_000 then 20_000_000 / speed else 1
    else MAX_PATH_COST
  }

  /** The cost in force: the administrative value, or the computed one when that is 0. */
  function PathCost(admin: u32, speed: int): (c: u32)
    ensures c >= 1
  {
    if admin == 0 then ComputePcost(speed) else admin
  }

  /** The CIST of one bridge with the information its ports have recorded. */
  datatype Node = Node(tree: Tree, ports: seq<Port>)

  type Net = map<BridgeId, Node>

  predicate NodeOk(id: BridgeId, n: Node) {
    && |n.tree.ptps| == |n.ports| && n.tree.mstid == 0 && n.tree.bridgeId == id
    && n.tree.bridgePriority == Vec(id, 0, id, 0, id, 0)
    && (forall i :: 0 <= i < |n.ports| ==> n.ports[i].externalCost >= 1 && n.tree.ptps[i].internalCost >= 1)
  }

  /** The root vector and Root Port that role selection gives the bridge. */
  function Choice(n: Node): (c: RootChoice)
    requires |n.tree.ptps| == |n.ports|
    ensures c.index.Some? ==> c.index.value < |n.ports|
  {
    RootOf(n.tree, n.ports)
  }

  /** What port `q` of the bridge advertises. */
  function Advertised(n: Node, q: nat): Vec
    requires |n.tree.ptps| == |n.ports| && q < |n.ports|
  {
    DesignatedVec(Choice(n).vec, n.tree.bridgeId, n.tree.ptps[q], n.ports[q], n.tree.mstid == 0)
  }

  /** Port `i` of `n` holds what port `q` of bridge `d` advertises. */
  predicate HeardOn(n: Node, i: nat, d: Node, q: nat)
    requires |n.tree.ptps| == |n.ports| && |d.tree.ptps| == |d.ports| && i < |n.ports|
  {
    q < |d.ports| && n.tree.ptps[i].portPriority == Advertised(d, q)
  }

  ghost predicate HeardFrom(n: Node, i: nat, d: Node)
    requires |n.tree.ptps| == |n.ports| && |d.tree.ptps| == |d.ports| && i < |n.ports|
  {
    exists q: nat :: HeardOn(n, i, d, q)
  }

  /** The cost sum formed at port `i`. */
  function CostSum(n: Node, i: nat): nat
    requires |n.tree.ptps| == |n.ports| && i < |n.ports|
  {
    var v := n.tree.ptps[i].portPriority;
    if n.ports[i].rcvdInternal.On? then v.intCost + n.tree.ptps[i].internalCost
    else v.extCost + n.ports[i].externalCost
  }

  /** Every bridge is well formed, the information on every Root Port is current, and no cost sum wraps. */
  ghost predicate Current(net: Net) {
    && (forall id :: id in net ==> NodeOk(id, net[id]))
    && (forall id :: id in net ==>
          var n := net[id];
          var root := Choice(n).index;
          root.Some? ==>
            var up := n.tree.ptps[root.value].portPriority.desBridge;
            && up in net && |net[up].tree.ptps| == |net[up].ports|
            && HeardFrom(n, root.value, net[up]) && CostSum(n, root.value) < 0x1_0000_0000)
  }

  /** The bridge that a bridge's Root Port points to. */
  function Upstream(n: Node): Option<BridgeId>
    requires |n.tree.ptps| == |n.ports|
  {
    var root := Choice(n).index;
    if root.Some? then Some(n.tree.ptps[root.value].portPriority.desBridge) else None
  }

  /** The strict order on (RootID, ExtRootPathCost, RRootID, IntRootPathCost). */
  predicate Better4(v: Vec, w: Vec) {
    if v.rootId != w.rootId then IdLess(v.rootId, w.rootId)
    else if v.extCost != w.extCost then v.extCost < w.extCost
    else if v.rrootId != w.rrootId then IdLess(v.rrootId, w.rrootId)
    else v.intCost < w.intCost
  }

  /** Lower cost: the external cost counts first. */
  predicate Cheaper(v: Vec, w: Vec) {
    v.extCost < w.extCost || (v.extCost == w.extCost && v.intCost < w.intCost)
  }

  /** One step towards the Root lowers the cost exactly when the cost sum does not wrap. */
  lemma StepIsCheaperIffNoWrap(n: Node, i: nat, d: Node)
    requires |n.tree.ptps| == |n.ports| && NodeOk(d.tree.bridgeId, d) && n.tree.mstid == 0
    requires i < |n.ports| && Choice(n).index == Some(i)
    requires n.ports[i].externalCost >= 1 && n.tree.ptps[i].internalCost >= 1
    requires HeardFrom(n, i, d)
    ensures Cheaper(Choice(d).vec, Choice(n).vec) <==> CostSum(n, i) < 0x1_0000_0000
    ensures Choice(d).vec.rootId == Choice(n).vec.rootId
  {
    ScanIsMinimum(n.tree, n.ports, |n.ports|);
  }

  /** What the designated port puts in the place of the regional root it has. */
  predicate FallsBack(d: Node, q: nat)
    requires |d.tree.ptps| == |d.ports| && q < |d.ports|
  {
    d.ports[q].sendRSTP.Off? && Choice(d).vec.rrootId != d.tree.bridgeId
  }

  /** One step towards the Root improves all four components together exactly when the cost sum does not wrap. Only
      where internal information comes from a port that fell back to STP, the replaced regional root decides instead. */
  lemma StepImprovesIff(n: Node, i: nat, d: Node, q: nat)
    requires |n.tree.ptps| == |n.ports| && NodeOk(d.tree.bridgeId, d) && n.tree.mstid == 0
    requires i < |n.ports| && Choice(n).index == Some(i)
    requires n.ports[i].externalCost >= 1 && n.tree.ptps[i].internalCost >= 1
    requires HeardOn(n, i, d, q)
    ensures Better4(Choice(d).vec, Choice(n).vec) <==>
            if n.ports[i].rcvdInternal.On? && FallsBack(d, q) then IdLess(Choice(d).vec.rrootId, d.tree.bridgeId)
            else CostSum(n, i) < 0x1_0000_0000
  {
    ScanIsMinimum(n.tree, n.ports, |n.ports|);
  }

  // ---- Paths along Root Ports ----

  /** Each bridge of the path is the upstream neighbour of the one before it. */
  ghost predicate RootwardPath(net: Net, p: seq<BridgeId>)
    requires Current(net)
  {
    && (forall k :: 0 <= k < |p| ==> p[k] in net)
    && (forall k :: 0 <= k < |p| - 1 ==> Upstream(net[p[k]]) == Some(p[k + 1]))
  }

  lemma UpstreamIsCheaper(net: Net, id: BridgeId)
    requires Current(net) && id in net && Upstream(net[id]).Some?
    ensures var up := Upstream(net[id]).value;
            && up in net && Cheaper(Choice(net[up]).vec, Choice(net[id]).vec)
            && Choice(net[up]).vec.rootId == Choice(net[id]).vec.rootId
  {
    var n := net[id];
    var i := Choice(n).index.value;
    assert NodeOk(id, n);
    var up := n.tree.ptps[i].portPriority.desBridge;
    assert NodeOk(up, net[up]);
    StepIsCheaperIffNoWrap(n, i, net[up]);
  }

  /** Along a path the cost strictly falls, and the Root stays the same. */
  lemma {:induction false} PathGetsCheaper(net: Net, p: seq<BridgeId>, j: nat, k: nat)
    requires Current(net) && RootwardPath(net, p) && j < k < |p|
    ensures Cheaper(Choice(net[p[k]]).vec, Choice(net[p[j]]).vec)
    ensures Choice(net[p[k]]).vec.rootId == Choice(net[p[j]]).vec.rootId
    decreases k
  {
    assert Upstream(net[p[k - 1]]) == Some(p[(k - 1) + 1]);
    UpstreamIsCheaper(net, p[k - 1]);
    if j < k - 1 {
      PathGetsCheaper(net, p, j, k - 1);
    }
  }

  /** Following Root Ports never comes back to a bridge already visited. */
  lemma RootPortsNeverCycle(net: Net, p: seq<BridgeId>, j: nat, k: nat)
    requires Current(net) && RootwardPath(net, p) && j < k < |p|
    ensures p[j] != p[k]
  {
    PathGetsCheaper(net, p, j, k);
  }

  // ---- Where the paths lead ----

  ghost function CheaperNodes(net: Net, id: BridgeId): set<BridgeId>
    requires Current(net) && id in net
  {
    set d | d in net && Cheaper(Choice(net[d]).vec, Choice(net[id]).vec)
  }

  lemma UpstreamHasFewerCheaper(net: Net, id: BridgeId)
    requires Current(net) && id in net && Upstream(net[id]).Some?
    ensures var up := Upstream(net[id]).value; up in net && CheaperNodes(net, up) < CheaperNodes(net, id)
  {
    var up := Upstream(net[id]).value;
    UpstreamIsCheaper(net, id);
    forall d | d in CheaperNodes(net, up)
      ensures d in CheaperNodes(net, id)
    {
    }
    assert up in CheaperNodes(net, id) && up !in CheaperNodes(net, up);
  }

  /** The path from a bridge to the bridge at which Root Ports end. */
  ghost function PathToRoot(net: Net, id: BridgeId): (p: seq<BridgeId>)
    requires Current(net) && id in net
    ensures |p| > 0 && p[0] == id && RootwardPath(net, p)
    ensures Upstream(net[p[|p| - 1]]).None?
    decreases CheaperNodes(net, id)
  {
    if Upstream(net[id]).None? then [id]
    else
      UpstreamHasFewerCheaper(net, id);
      [id] + PathToRoot(net, Upstream(net[id]).value)
  }

  /** The external cost that a bridge adds at its Root Port. */
  function HopCost(n: Node): nat
    requires |n.tree.ptps| == |n.ports|
  {
    var root := Choice(n).index;
    if root.Some? && n.ports[root.value].rcvdInternal.Off? then n.ports[root.value].externalCost else 0
  }

  ghost function ExternalCostAlong(net: Net, p: seq<BridgeId>): nat
    requires Current(net) && forall k :: 0 <= k < |p| ==> p[k] in net
  {
    if p == [] then 0 else HopCost(net[p[0]]) + ExternalCostAlong(net, p[1..])
  }

  /** A bridge without Root Port is its own Root at no cost; any other adds its hop to its upstream neighbour. */
  lemma HopAddsCost(net: Net, id: BridgeId)
    requires Current(net) && id in net
    ensures Upstream(net[id]).None? ==> Choice(net[id]).vec.rootId == id && Choice(net[id]).vec.extCost == 0
    ensures Upstream(net[id]).None? ==> HopCost(net[id]) == 0
    ensures Upstream(net[id]).Some? ==>
              var up := Upstream(net[id]).value;
              up in net && Choice(net[id]).vec.extCost == Choice(net[up]).vec.extCost + HopCost(net[id])
  {
    var n := net[id];
    assert NodeOk(id, n);
    ScanIsMinimum(n.tree, n.ports, |n.ports|);
    if Choice(n).index.Some? {
      var up := n.tree.ptps[Choice(n).index.value].portPriority.desBridge;
      assert NodeOk(up, net[up]);
    }
  }

  /** From every bridge, Root Ports lead within as many steps as there are bridges to the bridge that every
      bridge on the way calls the Root; and the external cost a bridge advertises is what the path adds up to. */
  lemma {:induction false} RootPortsLeadToRoot(net: Net, id: BridgeId)
    requires Current(net) && id in net
    ensures var p := PathToRoot(net, id);
            && p[|p| - 1] == Choice(net[id]).vec.rootId
            && Choice(net[id]).vec.extCost == ExternalCostAlong(net, p)
            && |p| <= |net|
    decreases CheaperNodes(net, id)
  {
    var p := PathToRoot(net, id);
    HopAddsCost(net, id);
    PathFits(net, p);
    if Upstream(net[id]).Some? {
      var up := Upstream(net[id]).value;
      UpstreamHasFewerCheaper(net, id);
      UpstreamIsCheaper(net, id);
      RootPortsLeadToRoot(net, up);
      assert p[1..] == PathToRoot(net, up);
    } else {
      assert p[1..] == [];
    }
  }

  lemma PathFits(net: Net, p: seq<BridgeId>)
    requires Current(net) && RootwardPath(net, p)
    ensures |p| <= |net|
  {
    forall j, k | 0 <= j < k < |p|
      ensures p[j] != p[k]
    {
      RootPortsNeverCycle(net, p, j, k);
    }
    DistinctFits(p, net.Keys);
  }

  lemma {:induction false} DistinctFits(p: seq<BridgeId>, s: set<BridgeId>)
    requires forall k :: 0 <= k < |p| ==> p[k] in s
    requires forall j, k :: 0 <= j < k < |p| ==> p[j] != p[k]
    ensures |p| <= |s|
    decreases |p|
  {
    if p != [] {
      DistinctFits(p[1..], s - {p[0]});
    }
  }
}
