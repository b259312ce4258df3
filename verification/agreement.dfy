/** Which Root the bridges of a settled network name: all the same, the one with the least identifier. */
module Agreement {
  import opened Types
  import opened Vectors
  import opened Roles
  import opened RoleTheorems
  import opened Network

  /** Port `i` of bridge `a` and port `q` of bridge `b` are on one link. */
  datatype Link = Link(a: BridgeId, i: nat, b: BridgeId, q: nat)

  /** Both ends are in the network, and the relation is symmetric. */
  ghost predicate LinksOk(net: Net, links: set<Link>) {
    forall l :: l in links ==>
      && l.a in net && l.b in net && l.a != l.b && Link(l.b, l.q, l.a, l.i) in links
      && |net[l.a].tree.ptps| == |net[l.a].ports| && |net[l.b].tree.ptps| == |net[l.b].ports|
      && l.i < |net[l.a].ports| && l.q < |net[l.b].ports|
  }

  /** The end of a link at bridge `a`: its port has recorded what the other end advertises, and may become the Root
      Port; or it has its own information, and what the other end advertises is not better. */
  predicate EndSettled(n: Node, i: nat, d: Node, q: nat)
    requires |n.tree.ptps| == |n.ports| && |d.tree.ptps| == |d.ports| && i < |n.ports| && q < |d.ports|
  {
    var p := n.tree.ptps[i];
    || (p.infoIs == IoReceived && p.portPriority == Advertised(d, q) && n.ports[i].restrictedRole.Off?)
    || (p.infoIs == IoMine && p.portPriority == Advertised(n, i)
        && !StrictlyBetter(Advertised(d, q), p.portPriority, true))
  }

  ghost predicate Settled(net: Net, links: set<Link>) {
    LinksOk(net, links) && forall l :: l in links ==> EndSettled(net[l.a], l.i, net[l.b], l.q)
  }

  /** The bridge that bridge `id` names as the Root. */
  function Named(net: Net, id: BridgeId): BridgeId
    requires id in net && |net[id].tree.ptps| == |net[id].ports|
  {
    Choice(net[id]).vec.rootId
  }

  /** A vector as good as another names no greater Root. */
  lemma BetterNamesNoGreater(v: Vec, w: Vec, p: u16, q: u16)
    requires BetterOrSame(v, w, p, q, true)
    ensures !IdLess(w.rootId, v.rootId)
  {
  }

  /** At a settled end the bridge names no greater Root than the other end does. */
  lemma EndNamesNoGreater(n: Node, i: nat, d: Node, q: nat)
    requires NodeOk(n.tree.bridgeId, n) && NodeOk(d.tree.bridgeId, d) && n.tree.bridgeId != d.tree.bridgeId
    requires i < |n.ports| && q < |d.ports| && EndSettled(n, i, d, q)
    ensures !IdLess(Choice(d).vec.rootId, Choice(n).vec.rootId)
  {
    var p, c := n.tree.ptps[i], Choice(n);
    if p.infoIs == IoReceived {
      ScanIsMinimum(n.tree, n.ports, |n.ports|);
      var path := RootPath(p, n.ports[i], n.tree);
      assert FromPort(n.tree, n.ports, i, path, p.portId);
      assert IsCandidate(n.tree, n.ports, |n.ports|, path, p.portId);
      BetterNamesNoGreater(c.vec, path, c.pid, p.portId);
    } else {
      BetterOrSameTotal(p.portPriority, Advertised(d, q), 0, 0, true);
      BetterNamesNoGreater(p.portPriority, Advertised(d, q), 0, 0);
    }
  }

  lemma LinkedNameTheSame(net: Net, links: set<Link>, l: Link)
    requires Current(net) && Settled(net, links) && l in links
    ensures Named(net, l.a) == Named(net, l.b)
  {
    var back := Link(l.b, l.q, l.a, l.i);
    assert NodeOk(l.a, net[l.a]) && NodeOk(l.b, net[l.b]);
    assert EndSettled(net[back.a], back.i, net[back.b], back.q);
    EndNamesNoGreater(net[l.a], l.i, net[l.b], l.q);
    EndNamesNoGreater(net[l.b], l.q, net[l.a], l.i);
  }

  // ---- Connected networks ----

  /** Each bridge of the path is linked to the next one. */
  ghost predicate LinkedPath(links: set<Link>, p: seq<BridgeId>) {
    forall k :: 0 <= k < |p| - 1 ==> Adjacent(links, p[k], p[k + 1])
  }

  ghost predicate Adjacent(links: set<Link>, a: BridgeId, b: BridgeId) {
    exists l :: l in links && l.a == a && l.b == b
  }

  ghost predicate Joins(links: set<Link>, p: seq<BridgeId>, a: BridgeId, b: BridgeId) {
    p != [] && p[0] == a && p[|p| - 1] == b && LinkedPath(links, p)
  }

  ghost predicate Connected(net: Net, links: set<Link>) {
    forall a, b :: a in net && b in net ==> exists p :: Joins(links, p, a, b)
  }

  lemma {:induction false} PathNamesTheSame(net: Net, links: set<Link>, p: seq<BridgeId>, a: BridgeId, b: BridgeId)
    requires Current(net) && Settled(net, links) && Joins(links, p, a, b) && a in net
    ensures b in net && |net[b].tree.ptps| == |net[b].ports| && Named(net, a) == Named(net, b)
    decreases |p|
  {
    assert NodeOk(a, net[a]);
    if |p| > 1 {
      assert Adjacent(links, p[0], p[0 + 1]);
      var l :| l in links && l.a == p[0] && l.b == p[1];
      LinkedNameTheSame(net, links, l);
      forall k | 0 <= k < |p[1..]| - 1
        ensures Adjacent(links, p[1..][k], p[1..][k + 1])
      {
        assert Adjacent(links, p[k + 1], p[(k + 1) + 1]);
      }
      PathNamesTheSame(net, links, p[1..], p[1], b);
    }
  }

  /** A bridge names no Root with a greater identifier than its own. */
  lemma NamesNoneGreater(net: Net, id: BridgeId)
    requires Current(net) && id in net
    ensures !IdLess(id, Named(net, id))
  {
    var n := net[id];
    assert NodeOk(id, n);
    ScanIsMinimum(n.tree, n.ports, |n.ports|);
    assert IsCandidate(n.tree, n.ports, |n.ports|, n.tree.bridgePriority, 0);
    BetterNamesNoGreater(Choice(n).vec, n.tree.bridgePriority, Choice(n).pid, 0);
  }

  /** In a connected, settled network with current information every bridge names the same Root: the bridge of the
      network with the least identifier. */
  lemma AllNameTheLeast(net: Net, links: set<Link>, a: BridgeId)
    requires Current(net) && Settled(net, links) && Connected(net, links) && a in net
    ensures |net[a].tree.ptps| == |net[a].ports|
    ensures var root := Named(net, a);
            root in net && forall b :: b in net ==> !IdLess(b, root) && |net[b].tree.ptps| == |net[b].ports|
                                                     && Named(net, b) == root
  {
    assert NodeOk(a, net[a]);
    var root := Named(net, a);
    RootPortsLeadToRoot(net, a);
    var path := PathToRoot(net, a);
    assert path[|path| - 1] in net;
    forall b | b in net
      ensures !IdLess(b, root) && |net[b].tree.ptps| == |net[b].ports| && Named(net, b) == root
    {
      assert NodeOk(b, net[b]);
      var p :| Joins(links, p, a, b);
      PathNamesTheSame(net, links, p, a, b);
      NamesNoneGreater(net, b);
    }
  }

  /** That bridge is the only one without a Root Port; every other one has its Root Ports lead there. */
  lemma OnlyTheLeastHasNoRootPort(net: Net, links: set<Link>, a: BridgeId)
    requires Current(net) && Settled(net, links) && Connected(net, links) && a in net
    ensures |net[a].tree.ptps| == |net[a].ports|
    ensures Upstream(net[a]).None? <==> forall b :: b in net ==> !IdLess(b, a)
  {
    AllNameTheLeast(net, links, a);
    HopAddsCost(net, a);
    var root := Named(net, a);
    if Upstream(net[a]).Some? {
      RootPortsLeadToRoot(net, a);
      var p := PathToRoot(net, a);
      RootPortsNeverCycle(net, p, 0, |p| - 1);
      IdNumberOrders(root, a);
    }
  }
}
