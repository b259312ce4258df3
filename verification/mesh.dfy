/** The mesh of ports and trees: one per-tree port for each pair, threaded on the list of its port and on the
    list of its tree. */
module Mesh {
  import opened Types
  import opened ListHead
  import CT = ConfigTables

  function BrPortItems(ports: seq<nat>): seq<Addr> {
    seq(|ports|, i requires 0 <= i < |ports| => PortBr(ports[i]))
  }

  function BrTreeItems(trees: seq<u16>): seq<Addr> {
    seq(|trees|, i requires 0 <= i < |trees| => TreeBr(trees[i]))
  }

  function PortItems(trees: seq<u16>, p: nat): seq<Addr> {
    seq(|trees|, i requires 0 <= i < |trees| => PtpPort(trees[i], p))
  }

  function TreeItems(t: u16, ports: seq<nat>): seq<Addr> {
    seq(|ports|, i requires 0 <= i < |ports| => PtpTree(t, ports[i]))
  }

  ghost predicate PortLists(m: Links, ports: seq<nat>, trees: seq<u16>) {
    forall p :: p in ports ==> ListIs(m, TreesOf(p), PortItems(trees, p))
  }

  ghost predicate TreeLists(m: Links, trees: seq<u16>, ports: seq<nat>) {
    forall t :: t in trees ==> ListIs(m, PortsOf(t), TreeItems(t, ports))
  }

  /** Only the named ports and trees have lists. */
  ghost predicate NoStray(m: Links, ports: seq<nat>, trees: seq<u16>) {
    forall a :: InUse(m, a) ==> Named(Owner(a), ports, trees)
  }

  predicate Named(l: ListId, ports: seq<nat>, trees: seq<u16>) {
    match l
    case TreesOf(p) => p in ports
    case PortsOf(t) => t in trees
    case PortsOfBridge | TreesOfBridge => true
  }

  ghost predicate DistinctPorts(ports: seq<nat>) {
    forall i, j :: 0 <= i < j < |ports| ==> ports[i] != ports[j]
  }

  ghost predicate BridgeLists(m: Links, ports: seq<nat>, trees: seq<u16>) {
    ListIs(m, PortsOfBridge, BrPortItems(ports)) && ListIs(m, TreesOfBridge, BrTreeItems(trees))
  }

  /** Every port's list names all trees in the bridge's order, every tree's list all ports in the bridge's order, and
      nothing else is in use. */
  ghost predicate Meshed(m: Links, ports: seq<nat>, trees: seq<u16>) {
    && BridgeLists(m, ports, trees) && PortLists(m, ports, trees) && TreeLists(m, trees, ports)
    && NoStray(m, ports, trees) && DistinctPorts(ports) && CT.LegalTrees(trees)
  }

  /** In a mesh there is exactly one per-tree port for each pair of a port and a tree, linked in both lists. */
  lemma OnePerPair(m: Links, ports: seq<nat>, trees: seq<u16>, t: u16, p: nat)
    requires Meshed(m, ports, trees)
    ensures InUse(m, PtpPort(t, p)) <==> p in ports && t in trees
    ensures InUse(m, PtpTree(t, p)) <==> p in ports && t in trees
  {
    if p in ports {
      var items := PortItems(trees, p);
      assert ListIs(m, TreesOf(p), items);
      if i :| 0 <= i < |trees| && trees[i] == t {
        assert LinkedAt(m, Ring(TreesOf(p), items), i + 1);
      }
      assert PtpPort(t, p) in Ring(TreesOf(p), items) ==> t in trees;
    }
    if t in trees {
      var items := TreeItems(t, ports);
      assert ListIs(m, PortsOf(t), items);
      if i :| 0 <= i < |ports| && ports[i] == p {
        assert LinkedAt(m, Ring(PortsOf(t), items), i + 1);
      }
      assert PtpTree(t, p) in Ring(PortsOf(t), items) ==> p in ports;
    }
    assert Owner(PtpPort(t, p)) == TreesOf(p) && Owner(PtpTree(t, p)) == PortsOf(t);
  }

  // ---- What a change of one list leaves alone ----

  lemma PortListsKept(m: Links, n: Links, l: ListId, ports: seq<nat>, trees: seq<u16>)
    requires PortLists(m, ports, trees) && OnlyIn(m, n, l) && (l.TreesOf? ==> l.p !in ports)
    ensures PortLists(n, ports, trees)
  {
    forall p | p in ports
      ensures ListIs(n, TreesOf(p), PortItems(trees, p))
    {
      OtherListKept(m, n, l, TreesOf(p), PortItems(trees, p));
    }
  }

  lemma TreeListsKept(m: Links, n: Links, l: ListId, trees: seq<u16>, ports: seq<nat>)
    requires TreeLists(m, trees, ports) && OnlyIn(m, n, l) && (l.PortsOf? ==> l.t !in trees)
    ensures TreeLists(n, trees, ports)
  {
    forall t | t in trees
      ensures ListIs(n, PortsOf(t), TreeItems(t, ports))
    {
      OtherListKept(m, n, l, PortsOf(t), TreeItems(t, ports));
    }
  }

  lemma BridgeListsKept(m: Links, n: Links, l: ListId, ports: seq<nat>, trees: seq<u16>)
    requires BridgeLists(m, ports, trees) && OnlyIn(m, n, l) && !l.PortsOfBridge? && !l.TreesOfBridge?
    ensures BridgeLists(n, ports, trees)
  {
    OtherListKept(m, n, l, PortsOfBridge, BrPortItems(ports));
    OtherListKept(m, n, l, TreesOfBridge, BrTreeItems(trees));
  }

  lemma NoStrayKept(m: Links, n: Links, l: ListId, ports: seq<nat>, trees: seq<u16>)
    requires NoStray(m, ports, trees) && OnlyIn(m, n, l) && Named(l, ports, trees)
    ensures NoStray(n, ports, trees)
  {
    forall a | InUse(n, a)
      ensures Named(Owner(a), ports, trees)
    {
      if Owner(a) != l { assert SameAt(m, n, a); }
    }
  }

  lemma NoStrayGrows(m: Links, ports: seq<nat>, trees: seq<u16>, ports1: seq<nat>, trees1: seq<u16>)
    requires NoStray(m, ports, trees) && (forall p :: p in ports ==> p in ports1)
             && (forall t :: t in trees ==> t in trees1)
    ensures NoStray(m, ports1, trees1)
  {
  }

  /** An entry that the list does not hold is not in use. */
  lemma Unused(m: Links, l: ListId, items: seq<Addr>, x: Addr)
    requires ListIs(m, l, items) && Owner(x) == l && x != Head(l) && x !in items
    ensures !InUse(m, x)
  {
    assert x !in Ring(l, items);
  }

  // ---- Growing and shrinking sequences ----

  lemma PortItemsGrow(trees: seq<u16>, k: nat, p: nat)
    requires k < |trees|
    ensures PortItems(trees[..k + 1], p) == PortItems(trees[..k], p) + [PtpPort(trees[k], p)]
  {
  }

  lemma TreeItemsGrow(t: u16, ports: seq<nat>, p: nat)
    ensures TreeItems(t, ports + [p]) == TreeItems(t, ports) + [PtpTree(t, p)]
  {
  }

  ghost function CutAt<T>(s: seq<T>, k: nat): seq<T>
    requires k < |s|
  {
    s[..k] + s[k + 1..]
  }

  lemma ItemsCut(trees: seq<u16>, k: nat, p: nat)
    requires k < |trees|
    ensures PortItems(CutAt(trees, k), p) == Cut(PortItems(trees, p), k)
    ensures BrTreeItems(CutAt(trees, k)) == Cut(BrTreeItems(trees), k)
  {
  }

  lemma TreeItemsCut(t: u16, ports: seq<nat>, k: nat)
    requires k < |ports|
    ensures TreeItems(t, CutAt(ports, k)) == Cut(TreeItems(t, ports), k)
    ensures BrPortItems(CutAt(ports, k)) == Cut(BrPortItems(ports), k)
  {
  }

  ghost function InsertAt(trees: seq<u16>, k: nat, t: u16): seq<u16>
    requires k <= |trees|
  {
    trees[..k] + [t] + trees[k..]
  }

  lemma ItemsInsert(trees: seq<u16>, k: nat, t: u16, p: nat)
    requires k <= |trees|
    ensures PortItems(InsertAt(trees, k, t), p) == Inserted(PortItems(trees, p), k, PtpPort(t, p))
    ensures BrTreeItems(InsertAt(trees, k, t)) == Inserted(BrTreeItems(trees), k, TreeBr(t))
  {
  }

  // ---- Creating a port ----

  /** The new port `p` has its entries in the first `k` trees. */
  ghost predicate AddingPort(m: Links, ports: seq<nat>, trees: seq<u16>, p: nat, k: nat)
    requires k <= |trees|
  {
    && BridgeLists(m, ports, trees) && PortLists(m, ports, trees)
    && ListIs(m, TreesOf(p), PortItems(trees[..k], p))
    && TreeLists(m, trees[..k], ports + [p]) && TreeLists(m, trees[k..], ports)
    && NoStray(m, ports + [p], trees)
  }

  lemma AddingPortBegins(m: Links, n: Links, ports: seq<nat>, trees: seq<u16>, p: nat)
    requires Meshed(m, ports, trees) && p !in ports && OnlyIn(m, n, TreesOf(p)) && ListIs(n, TreesOf(p), [])
    ensures AddingPort(n, ports, trees, p, 0)
  {
    BridgeListsKept(m, n, TreesOf(p), ports, trees);
    PortListsKept(m, n, TreesOf(p), ports, trees);
    TreeListsKept(m, n, TreesOf(p), trees, ports);
    NoStrayGrows(m, ports, trees, ports + [p], trees);
    NoStrayKept(m, n, TreesOf(p), ports + [p], trees);
    assert PortItems(trees[..0], p) == [] && trees[0..] == trees;
  }

  lemma AddingPortStep(m: Links, m1: Links, n: Links, ports: seq<nat>, trees: seq<u16>, p: nat, k: nat)
    requires k < |trees| && AddingPort(m, ports, trees, p, k) && p !in ports && CT.LegalTrees(trees)
    requires OnlyIn(m, m1, TreesOf(p)) && ListIs(m1, TreesOf(p), PortItems(trees[..k], p) + [PtpPort(trees[k], p)])
    requires OnlyIn(m1, n, PortsOf(trees[k]))
             && ListIs(n, PortsOf(trees[k]), TreeItems(trees[k], ports) + [PtpTree(trees[k], p)])
    ensures AddingPort(n, ports, trees, p, k + 1)
  {
    var l, l1, ps := TreesOf(p), PortsOf(trees[k]), ports + [p];
    BridgeListsKept(m, m1, l, ports, trees);
    BridgeListsKept(m1, n, l1, ports, trees);
    PortListsKept(m, m1, l, ports, trees);
    PortListsKept(m1, n, l1, ports, trees);
    PortItemsGrow(trees, k, p);
    OtherListKept(m1, n, l1, l, PortItems(trees[..k + 1], p));
    NoStrayKept(m, m1, l, ps, trees);
    NoStrayKept(m1, n, l1, ps, trees);
    TreeListsKept(m, m1, l, trees[..k], ps);
    TreeListsKept(m1, n, l1, trees[..k], ps);
    TreeListsKept(m, m1, l, trees[k..], ports);
    assert TreeLists(m1, trees[k + 1..], ports) by {
      assert forall t :: t in trees[k + 1..] ==> t in trees[k..];
    }
    TreeListsKept(m1, n, l1, trees[k + 1..], ports);
    TreeItemsGrow(trees[k], ports, p);
    assert trees[..k + 1] == trees[..k] + [trees[k]];
  }

  lemma AddingPortEnds(m: Links, n: Links, ports: seq<nat>, trees: seq<u16>, p: nat)
    requires AddingPort(m, ports, trees, p, |trees|) && p !in ports && DistinctPorts(ports) && CT.LegalTrees(trees)
    requires OnlyIn(m, n, PortsOfBridge) && ListIs(n, PortsOfBridge, BrPortItems(ports) + [PortBr(p)])
    ensures Meshed(n, ports + [p], trees)
  {
    assert BrPortItems(ports + [p]) == BrPortItems(ports) + [PortBr(p)] && trees[..|trees|] == trees;
    OtherListKept(m, n, PortsOfBridge, TreesOfBridge, BrTreeItems(trees));
    PortListsKept(m, n, PortsOfBridge, ports, trees);
    OtherListKept(m, n, PortsOfBridge, TreesOf(p), PortItems(trees, p));
    TreeListsKept(m, n, PortsOfBridge, trees, ports + [p]);
    NoStrayKept(m, n, PortsOfBridge, ports + [p], trees);
  }

  // ---- Deleting port number `x` ----

  /** The entries of port `ports[x]` are gone from the first `k` trees. */
  ghost predicate DroppingPort(m: Links, ports: seq<nat>, trees: seq<u16>, x: nat, k: nat)
    requires k <= |trees| && x < |ports|
  {
    && BridgeLists(m, ports, trees) && PortLists(m, CutAt(ports, x), trees)
    && ListIs(m, TreesOf(ports[x]), PortItems(trees[k..], ports[x]))
    && TreeLists(m, trees[..k], CutAt(ports, x)) && TreeLists(m, trees[k..], ports)
    && NoStray(m, ports, trees)
  }

  lemma DroppingPortBegins(m: Links, ports: seq<nat>, trees: seq<u16>, x: nat)
    requires Meshed(m, ports, trees) && x < |ports|
    ensures DroppingPort(m, ports, trees, x, 0)
  {
    assert trees[0..] == trees;
    assert forall p :: p in CutAt(ports, x) ==> p in ports;
  }

  lemma CutIsGone(ports: seq<nat>, x: nat)
    requires DistinctPorts(ports) && x < |ports|
    ensures ports[x] !in CutAt(ports, x) && DistinctPorts(CutAt(ports, x))
    ensures forall p :: p in ports <==> p in CutAt(ports, x) || p == ports[x]
  {
    assert ports == ports[..x] + [ports[x]] + ports[x + 1..];
  }

  lemma DroppingPortStep(m: Links, m1: Links, n: Links, ports: seq<nat>, trees: seq<u16>, x: nat, k: nat)
    requires k < |trees| && x < |ports| && DroppingPort(m, ports, trees, x, k) && DistinctPorts(ports)
             && CT.LegalTrees(trees)
    requires OnlyIn(m, m1, TreesOf(ports[x])) && ListIs(m1, TreesOf(ports[x]), Cut(PortItems(trees[k..], ports[x]), 0))
    requires OnlyIn(m1, n, PortsOf(trees[k])) && ListIs(n, PortsOf(trees[k]), Cut(TreeItems(trees[k], ports), x))
    ensures DroppingPort(n, ports, trees, x, k + 1)
  {
    var l, l1, ps := TreesOf(ports[x]), PortsOf(trees[k]), CutAt(ports, x);
    CutIsGone(ports, x);
    BridgeListsKept(m, m1, l, ports, trees);
    BridgeListsKept(m1, n, l1, ports, trees);
    PortListsKept(m, m1, l, ps, trees);
    PortListsKept(m1, n, l1, ps, trees);
    assert Cut(PortItems(trees[k..], ports[x]), 0) == PortItems(trees[k + 1..], ports[x]);
    OtherListKept(m1, n, l1, l, PortItems(trees[k + 1..], ports[x]));
    NoStrayKept(m, m1, l, ports, trees);
    NoStrayKept(m1, n, l1, ports, trees);
    TreeListsKept(m, m1, l, trees[..k], ps);
    TreeListsKept(m1, n, l1, trees[..k], ps);
    TreeListsKept(m, m1, l, trees[k..], ports);
    assert TreeLists(m1, trees[k + 1..], ports) by {
      assert forall t :: t in trees[k + 1..] ==> t in trees[k..];
    }
    TreeListsKept(m1, n, l1, trees[k + 1..], ports);
    TreeItemsCut(trees[k], ports, x);
    assert trees[..k + 1] == trees[..k] + [trees[k]];
  }

  lemma DroppingPortEnds(m: Links, m1: Links, n: Links, ports: seq<nat>, trees: seq<u16>, x: nat)
    requires x < |ports| && DroppingPort(m, ports, trees, x, |trees|) && DistinctPorts(ports) && CT.LegalTrees(trees)
    requires OnlyIn(m, m1, PortsOfBridge) && ListIs(m1, PortsOfBridge, Cut(BrPortItems(ports), x))
    requires OnlyIn(m1, n, TreesOf(ports[x])) && forall a :: Owner(a) == TreesOf(ports[x]) ==> !InUse(n, a)
    ensures Meshed(n, CutAt(ports, x), trees)
  {
    var l, ps := TreesOf(ports[x]), CutAt(ports, x);
    CutIsGone(ports, x);
    TreeItemsCut(0, ports, x);
    assert trees[..|trees|] == trees;
    OtherListKept(m, m1, PortsOfBridge, TreesOfBridge, BrTreeItems(trees));
    BridgeListsKept(m1, n, l, ps, trees);
    PortListsKept(m, m1, PortsOfBridge, ps, trees);
    PortListsKept(m1, n, l, ps, trees);
    TreeListsKept(m, m1, PortsOfBridge, trees, ps);
    TreeListsKept(m1, n, l, trees, ps);
    NoStrayKept(m, m1, PortsOfBridge, ports, trees);
    NoStrayKept(m1, n, l, ports, trees);
  }

  // ---- Creating a tree at position `x` ----

  /** The new tree `t` has its entries in the first `k` ports. */
  ghost predicate AddingTree(m: Links, ports: seq<nat>, trees: seq<u16>, t: u16, x: nat, k: nat)
    requires k <= |ports| && x <= |trees|
  {
    && BridgeLists(m, ports, trees) && TreeLists(m, trees, ports)
    && ListIs(m, PortsOf(t), TreeItems(t, ports[..k]))
    && PortLists(m, ports[..k], InsertAt(trees, x, t)) && PortLists(m, ports[k..], trees)
    && NoStray(m, ports, InsertAt(trees, x, t))
  }

  lemma InsertAtMembers(trees: seq<u16>, x: nat, t: u16)
    requires x <= |trees|
    ensures forall u :: u in InsertAt(trees, x, t) <==> u in trees || u == t
  {
    assert trees == trees[..x] + trees[x..];
  }

  lemma AddingTreeBegins(m: Links, n: Links, ports: seq<nat>, trees: seq<u16>, t: u16, x: nat)
    requires Meshed(m, ports, trees) && t !in trees && x <= |trees| && OnlyIn(m, n, PortsOf(t))
             && ListIs(n, PortsOf(t), [])
    ensures AddingTree(n, ports, trees, t, x, 0)
  {
    var ts := InsertAt(trees, x, t);
    InsertAtMembers(trees, x, t);
    BridgeListsKept(m, n, PortsOf(t), ports, trees);
    PortListsKept(m, n, PortsOf(t), ports, trees);
    TreeListsKept(m, n, PortsOf(t), trees, ports);
    NoStrayGrows(m, ports, trees, ports, ts);
    NoStrayKept(m, n, PortsOf(t), ports, ts);
    assert TreeItems(t, ports[..0]) == [] && ports[0..] == ports;
  }

  lemma AddingTreeStep(m: Links, m1: Links, n: Links, ports: seq<nat>, trees: seq<u16>, t: u16, x: nat, k: nat)
    requires k < |ports| && x <= |trees| && AddingTree(m, ports, trees, t, x, k) && t !in trees && DistinctPorts(ports)
    requires OnlyIn(m, m1, TreesOf(ports[k]))
    requires ListIs(m1, TreesOf(ports[k]), Inserted(PortItems(trees, ports[k]), x, PtpPort(t, ports[k])))
    requires OnlyIn(m1, n, PortsOf(t)) && ListIs(n, PortsOf(t), TreeItems(t, ports[..k]) + [PtpTree(t, ports[k])])
    ensures AddingTree(n, ports, trees, t, x, k + 1)
  {
    var l, l1, ts := TreesOf(ports[k]), PortsOf(t), InsertAt(trees, x, t);
    InsertAtMembers(trees, x, t);
    BridgeListsKept(m, m1, l, ports, trees);
    BridgeListsKept(m1, n, l1, ports, trees);
    TreeListsKept(m, m1, l, trees, ports);
    TreeListsKept(m1, n, l1, trees, ports);
    assert ports[..k + 1] == ports[..k] + [ports[k]];
    TreeItemsGrow(t, ports[..k], ports[k]);
    NoStrayKept(m, m1, l, ports, ts);
    NoStrayKept(m1, n, l1, ports, ts);
    PortListsKept(m, m1, l, ports[..k], ts);
    PortListsKept(m1, n, l1, ports[..k], ts);
    assert PortLists(m, ports[k + 1..], trees) by {
      assert forall p :: p in ports[k + 1..] ==> p in ports[k..];
    }
    PortListsKept(m, m1, l, ports[k + 1..], trees);
    PortListsKept(m1, n, l1, ports[k + 1..], trees);
    ItemsInsert(trees, x, t, ports[k]);
    OtherListKept(m1, n, l1, l, PortItems(ts, ports[k]));
  }

  lemma AddingTreeEnds(m: Links, n: Links, ports: seq<nat>, trees: seq<u16>, t: u16, x: nat)
    requires x <= |trees| && AddingTree(m, ports, trees, t, x, |ports|) && DistinctPorts(ports)
    requires CT.LegalTrees(InsertAt(trees, x, t))
    requires OnlyIn(m, n, TreesOfBridge) && ListIs(n, TreesOfBridge, Inserted(BrTreeItems(trees), x, TreeBr(t)))
    ensures Meshed(n, ports, InsertAt(trees, x, t))
  {
    var ts := InsertAt(trees, x, t);
    InsertAtMembers(trees, x, t);
    ItemsInsert(trees, x, t, 0);
    assert ports[..|ports|] == ports;
    OtherListKept(m, n, TreesOfBridge, PortsOfBridge, BrPortItems(ports));
    TreeListsKept(m, n, TreesOfBridge, trees, ports);
    OtherListKept(m, n, TreesOfBridge, PortsOf(t), TreeItems(t, ports));
    PortListsKept(m, n, TreesOfBridge, ports, ts);
    NoStrayKept(m, n, TreesOfBridge, ports, ts);
  }

  // ---- Deleting tree number `x` ----

  /** The entries of tree `trees[x]`, no longer in the bridge's list, are gone from the first `k` ports. */
  ghost predicate DroppingTree(m: Links, ports: seq<nat>, trees: seq<u16>, x: nat, k: nat)
    requires k <= |ports| && x < |trees|
  {
    && BridgeLists(m, ports, CutAt(trees, x)) && TreeLists(m, CutAt(trees, x), ports)
    && ListIs(m, PortsOf(trees[x]), TreeItems(trees[x], ports[k..]))
    && PortLists(m, ports[..k], CutAt(trees, x)) && PortLists(m, ports[k..], trees)
    && NoStray(m, ports, trees)
  }

  lemma TreeIsGone(trees: seq<u16>, x: nat)
    requires CT.LegalTrees(trees) && x < |trees|
    ensures trees[x] !in CutAt(trees, x)
    ensures forall t :: t in trees <==> t in CutAt(trees, x) || t == trees[x]
  {
    assert trees == trees[..x] + [trees[x]] + trees[x + 1..];
  }

  lemma DroppingTreeBegins(m: Links, n: Links, ports: seq<nat>, trees: seq<u16>, x: nat)
    requires Meshed(m, ports, trees) && x < |trees|
    requires OnlyIn(m, n, TreesOfBridge) && ListIs(n, TreesOfBridge, Cut(BrTreeItems(trees), x))
    ensures DroppingTree(n, ports, trees, x, 0)
  {
    TreeIsGone(trees, x);
    ItemsCut(trees, x, 0);
    OtherListKept(m, n, TreesOfBridge, PortsOfBridge, BrPortItems(ports));
    TreeListsKept(m, n, TreesOfBridge, trees, ports);
    PortListsKept(m, n, TreesOfBridge, ports, trees);
    NoStrayKept(m, n, TreesOfBridge, ports, trees);
    assert ports[0..] == ports;
  }

  lemma DroppingTreeStep(m: Links, m1: Links, n: Links, ports: seq<nat>, trees: seq<u16>, x: nat, k: nat)
    requires k < |ports| && x < |trees| && DroppingTree(m, ports, trees, x, k) && DistinctPorts(ports)
             && CT.LegalTrees(trees)
    requires OnlyIn(m, m1, TreesOf(ports[k])) && ListIs(m1, TreesOf(ports[k]), Cut(PortItems(trees, ports[k]), x))
    requires OnlyIn(m1, n, PortsOf(trees[x])) && ListIs(n, PortsOf(trees[x]), Cut(TreeItems(trees[x], ports[k..]), 0))
    ensures DroppingTree(n, ports, trees, x, k + 1)
  {
    var l, l1, ts := TreesOf(ports[k]), PortsOf(trees[x]), CutAt(trees, x);
    TreeIsGone(trees, x);
    BridgeListsKept(m, m1, l, ports, ts);
    BridgeListsKept(m1, n, l1, ports, ts);
    TreeListsKept(m, m1, l, ts, ports);
    TreeListsKept(m1, n, l1, ts, ports);
    assert Cut(TreeItems(trees[x], ports[k..]), 0) == TreeItems(trees[x], ports[k + 1..]);
    NoStrayKept(m, m1, l, ports, trees);
    NoStrayKept(m1, n, l1, ports, trees);
    PortListsKept(m, m1, l, ports[..k], ts);
    PortListsKept(m1, n, l1, ports[..k], ts);
    assert PortLists(m, ports[k + 1..], trees) by {
      assert forall p :: p in ports[k + 1..] ==> p in ports[k..];
    }
    PortListsKept(m, m1, l, ports[k + 1..], trees);
    PortListsKept(m1, n, l1, ports[k + 1..], trees);
    ItemsCut(trees, x, ports[k]);
    OtherListKept(m1, n, l1, l, PortItems(ts, ports[k]));
    assert ports[..k + 1] == ports[..k] + [ports[k]];
  }

  lemma DroppingTreeEnds(m: Links, n: Links, ports: seq<nat>, trees: seq<u16>, x: nat)
    requires x < |trees| && DroppingTree(m, ports, trees, x, |ports|) && DistinctPorts(ports)
    requires CT.LegalTrees(trees) && CT.LegalTrees(CutAt(trees, x))
    requires OnlyIn(m, n, PortsOf(trees[x])) && forall a :: Owner(a) == PortsOf(trees[x]) ==> !InUse(n, a)
    ensures Meshed(n, ports, CutAt(trees, x))
  {
    var l, ts := PortsOf(trees[x]), CutAt(trees, x);
    TreeIsGone(trees, x);
    assert ports[..|ports|] == ports;
    BridgeListsKept(m, n, l, ports, ts);
    PortListsKept(m, n, l, ports, ts);
    TreeListsKept(m, n, l, ts, ports);
    NoStrayKept(m, n, l, ports, trees);
  }

  // ---- The object store ----

  class Store {
    const mem: Memory
    ghost var ports: seq<nat>
    ghost var trees: seq<u16>

    ghost predicate Valid()
      reads this, mem
    {
      Meshed(mem.View(), ports, trees)
    }

    /** A bridge as created: no port, and the CIST. */
    constructor ()
      ensures Valid() && fresh(mem) && ports == [] && trees == [0]
    {
      mem := new Memory();
      ports, trees := [], [0];
      new;
      mem.InitListHead(PortsOfBridge);
      ghost var m1 := mem.View();
      mem.InitListHead(TreesOfBridge);
      ghost var m2 := mem.View();
      mem.InitListHead(PortsOf(0));
      ghost var m3 := mem.View();
      OtherListKept(m2, m3, PortsOf(0), TreesOfBridge, []);
      Unused(m3, TreesOfBridge, [], TreeBr(0));
      mem.ListAddTail(TreeBr(0), TreesOfBridge, []);
      ghost var m4 := mem.View();
      CreatedMesh(m1, m2, m3, m4);
    }

    /** `MSTP_IN_port_create_and_add_tail`. */
    method CreatePort(p: nat)
      requires Valid() && p !in ports
      modifies this, mem
      ensures Valid() && ports == old(ports) + [p] && trees == old(trees)
    {
      ghost var m0 := mem.View();
      mem.InitListHead(TreesOf(p));
      AddingPortBegins(m0, mem.View(), ports, trees, p);
      ghost var k := 0;
      var pos := mem.Next(BrTrees, TreesOfBridge, BrTreeItems(trees), 0);
      while pos != BrTrees
        invariant k <= |trees| && AddingPort(mem.View(), ports, trees, p, k)
        invariant pos == if k < |trees| then TreeBr(trees[k]) else BrTrees
        decreases |trees| - k
        modifies mem
      {
        var t := pos.t;
        AddEntry(t, p, k);
        pos := mem.Next(pos, TreesOfBridge, BrTreeItems(trees), k + 1);
        k := k + 1;
      }
      ghost var m := mem.View();
      Unused(m, PortsOfBridge, BrPortItems(ports), PortBr(p));
      mem.ListAddTail(PortBr(p), PortsOfBridge, BrPortItems(ports));
      AddingPortEnds(m, mem.View(), ports, trees, p);
      ports := ports + [p];
    }

    method AddEntry(t: u16, p: nat, ghost k: nat)
      requires k < |trees| && trees[k] == t && AddingPort(mem.View(), ports, trees, p, k) && p !in ports
               && CT.LegalTrees(trees)
      modifies mem
      ensures AddingPort(mem.View(), ports, trees, p, k + 1)
    {
      ghost var m := mem.View();
      Unused(m, TreesOf(p), PortItems(trees[..k], p), PtpPort(t, p));
      mem.ListAddTail(PtpPort(t, p), TreesOf(p), PortItems(trees[..k], p));
      ghost var m1 := mem.View();
      assert t in trees[k..];
      OtherListKept(m, m1, TreesOf(p), PortsOf(t), TreeItems(t, ports));
      Unused(m1, PortsOf(t), TreeItems(t, ports), PtpTree(t, p));
      mem.ListAddTail(PtpTree(t, p), PortsOf(t), TreeItems(t, ports));
      AddingPortStep(m, m1, mem.View(), ports, trees, p, k);
    }

    /** The list part of `MSTP_IN_delete_port`; the caller then frees the port. */
    method DeletePort(p: nat, ghost x: nat)
      requires Valid() && x < |ports| && ports[x] == p
      modifies this, mem
      ensures Valid() && ports == CutAt(old(ports), x) && trees == old(trees)
    {
      DroppingPortBegins(mem.View(), ports, trees, x);
      ghost var k := 0;
      var pos := mem.Next(PortTrees(p), TreesOf(p), PortItems(trees, p), 0);
      var nxt := mem.Next(pos, TreesOf(p), PortItems(trees, p), 1);
      while pos != PortTrees(p)
        invariant k <= |trees| && DroppingPort(mem.View(), ports, trees, x, k)
        invariant pos == if k < |trees| then PtpPort(trees[k], p) else PortTrees(p)
        invariant k < |trees| ==> nxt == if k + 1 < |trees| then PtpPort(trees[k + 1], p) else PortTrees(p)
        decreases |trees| - k
        modifies mem
      {
        DropEntryOfPort(pos.t, p, x, k);
        k := k + 1;
        pos := nxt;
        nxt := mem.Next(nxt, TreesOf(p), PortItems(trees[k..], p), if k < |trees| then 1 else 0);
      }
      ghost var m := mem.View();
      mem.ListDel(PortBr(p), PortsOfBridge, BrPortItems(ports), x);
      ghost var m1 := mem.View();
      OtherListKept(m, m1, PortsOfBridge, TreesOf(p), PortItems(trees[|trees|..], p));
      mem.Free(TreesOf(p));
      DroppingPortEnds(m, m1, mem.View(), ports, trees, x);
      ports := CutAt(ports, x);
    }

    method DropEntryOfPort(t: u16, p: nat, ghost x: nat, ghost k: nat)
      requires k < |trees| && trees[k] == t && x < |ports| && ports[x] == p
      requires DroppingPort(mem.View(), ports, trees, x, k) && DistinctPorts(ports) && CT.LegalTrees(trees)
      modifies mem
      ensures DroppingPort(mem.View(), ports, trees, x, k + 1)
    {
      ghost var m := mem.View();
      mem.ListDel(PtpPort(t, p), TreesOf(p), PortItems(trees[k..], p), 0);
      ghost var m1 := mem.View();
      assert t in trees[k..];
      OtherListKept(m, m1, TreesOf(p), PortsOf(t), TreeItems(t, ports));
      mem.ListDel(PtpTree(t, p), PortsOf(t), TreeItems(t, ports), x);
      DroppingPortStep(m, m1, mem.View(), ports, trees, x, k);
    }

    /** `MSTP_IN_create_msti`: the new tree comes after the last tree with a smaller MSTID. */
    method CreateMsti(mstid: u16) returns (ok: bool)
      requires Valid()
      modifies this, mem
      ensures Valid() && ports == old(ports)
      ensures ok == (1 <= mstid <= MAX_MSTID && (mstid in old(trees) || |old(trees)| <= MAX_IMPLEMENTATION_MSTIS))
      ensures trees == if ok && mstid !in old(trees) then CT.Inserted(old(trees), mstid) else old(trees)
    {
      if mstid < 1 || mstid > MAX_MSTID { return false; }
      ghost var x: nat;
      var found, treeAfter, count;
      found, treeAfter, count, x := FindPlace(mstid);
      if found { return true; }
      CT.PlaceIsUnique(trees, mstid, x);
      if treeAfter.None? { return false; }
      if MAX_IMPLEMENTATION_MSTIS < count { return false; }
      CT.InsertionKeepsOrder(trees, mstid);
      InsertTree(mstid, treeAfter.value, x);
      return true;
    }

    /** Walks the trees: is the MSTID there, which is the last smaller one, how many are there? */
    method FindPlace(mstid: u16) returns (found: bool, treeAfter: Option<u16>, count: nat, ghost x: nat)
      requires ListIs(mem.View(), TreesOfBridge, BrTreeItems(trees)) && CT.LegalTrees(trees)
      ensures found <==> mstid in trees
      ensures !found ==> count == |trees| && CT.Splits(trees, mstid, x)
      ensures !found ==> treeAfter == if x == 0 then None else Some(trees[x - 1])
    {
      treeAfter, count, x := None, 0, 0;
      ghost var items := BrTreeItems(trees);
      var pos := mem.Next(BrTrees, TreesOfBridge, items, 0);
      while pos != BrTrees
        invariant count <= |trees| && mstid !in trees[..count]
        invariant pos == if count < |trees| then TreeBr(trees[count]) else BrTrees
        invariant CT.Splits(trees[..count], mstid, x) && treeAfter == if x == 0 then None else Some(trees[x - 1])
        decreases |trees| - count
        modifies {}
      {
        if pos.t == mstid { return true, treeAfter, count, x; }
        CT.SplitsGrow(trees, mstid, x, count);
        if pos.t < mstid {
          treeAfter := Some(pos.t);
          x := count + 1;
        }
        pos := mem.Next(pos, TreesOfBridge, items, count + 1);
        count := count + 1;
      }
      assert trees[..count] == trees;
      return false, treeAfter, count, x;
    }

    method InsertTree(t: u16, treeAfter: u16, ghost x: nat)
      requires Valid() && t !in trees && 0 < x <= |trees| && trees[x - 1] == treeAfter
               && CT.LegalTrees(InsertAt(trees, x, t))
      modifies this, mem
      ensures Valid() && trees == InsertAt(old(trees), x, t) && ports == old(ports)
    {
      ghost var m0 := mem.View();
      mem.InitListHead(PortsOf(t));
      AddingTreeBegins(m0, mem.View(), ports, trees, t, x);
      ghost var k := 0;
      var pos := mem.Next(TreePorts(treeAfter), PortsOf(treeAfter), TreeItems(treeAfter, ports), 0);
      while pos != TreePorts(treeAfter)
        invariant k <= |ports| && AddingTree(mem.View(), ports, trees, t, x, k)
        invariant pos == if k < |ports| then PtpTree(treeAfter, ports[k]) else TreePorts(treeAfter)
        decreases |ports| - k
        modifies mem
      {
        AddEntryAfter(t, treeAfter, pos.p, x, k);
        pos := mem.Next(pos, PortsOf(treeAfter), TreeItems(treeAfter, ports), k + 1);
        k := k + 1;
      }
      ghost var m := mem.View();
      Unused(m, TreesOfBridge, BrTreeItems(trees), TreeBr(t));
      mem.ListAdd(TreeBr(t), TreeBr(treeAfter), TreesOfBridge, BrTreeItems(trees), x);
      AddingTreeEnds(m, mem.View(), ports, trees, t, x);
      trees := InsertAt(trees, x, t);
    }

    method AddEntryAfter(t: u16, treeAfter: u16, p: nat, ghost x: nat, ghost k: nat)
      requires k < |ports| && ports[k] == p && 0 < x <= |trees| && trees[x - 1] == treeAfter
      requires AddingTree(mem.View(), ports, trees, t, x, k) && t !in trees && DistinctPorts(ports)
      modifies mem
      ensures AddingTree(mem.View(), ports, trees, t, x, k + 1)
    {
      ghost var m := mem.View();
      assert p in ports[k..];
      Unused(m, TreesOf(p), PortItems(trees, p), PtpPort(t, p));
      mem.ListAdd(PtpPort(t, p), PtpPort(treeAfter, p), TreesOf(p), PortItems(trees, p), x);
      ghost var m1 := mem.View();
      OtherListKept(m, m1, TreesOf(p), PortsOf(t), TreeItems(t, ports[..k]));
      Unused(m1, PortsOf(t), TreeItems(t, ports[..k]), PtpTree(t, p));
      mem.ListAddTail(PtpTree(t, p), PortsOf(t), TreeItems(t, ports[..k]));
      AddingTreeStep(m, m1, mem.View(), ports, trees, t, x, k);
    }

    /** `MSTP_IN_delete_msti`, refused while a FID is allocated to the MSTID. */
    method DeleteMsti(mstid: u16, fid2mstid: seq<u16>) returns (ok: bool)
      requires Valid() && |fid2mstid| == MAX_FID + 1
      modifies this, mem
      ensures Valid() && ports == old(ports) && ok == (1 <= mstid <= MAX_MSTID && mstid !in fid2mstid)
      ensures trees == if ok then CT.Without(old(trees), mstid) else old(trees)
    {
      if mstid < 1 || mstid > MAX_MSTID { return false; }
      for fid := 0 to |fid2mstid|
        invariant mstid !in fid2mstid[..fid]
      {
        if fid2mstid[fid] == mstid { return false; }
      }
      ghost var x := 0;
      var pos := mem.Next(BrTrees, TreesOfBridge, BrTreeItems(trees), 0);
      while pos != BrTrees && pos.t != mstid
        invariant x <= |trees| && mstid !in trees[..x]
        invariant pos == if x < |trees| then TreeBr(trees[x]) else BrTrees
        decreases |trees| - x
        modifies {}
      {
        pos := mem.Next(pos, TreesOfBridge, BrTreeItems(trees), x + 1);
        x := x + 1;
      }
      CT.WithoutAt(trees, mstid, x);
      if pos == BrTrees { return true; }
      CT.RemovalKeepsOrder(trees, mstid);
      RemoveTree(mstid, x);
      return true;
    }

    method RemoveTree(t: u16, ghost x: nat)
      requires Valid() && x < |trees| && trees[x] == t && CT.LegalTrees(CutAt(trees, x))
      modifies this, mem
      ensures Valid() && trees == CutAt(old(trees), x) && ports == old(ports)
    {
      ghost var m0 := mem.View();
      mem.ListDel(TreeBr(t), TreesOfBridge, BrTreeItems(trees), x);
      DroppingTreeBegins(m0, mem.View(), ports, trees, x);
      ghost var k := 0;
      assert ports[0..] == ports;
      var pos := mem.Next(TreePorts(t), PortsOf(t), TreeItems(t, ports), 0);
      var nxt := mem.Next(pos, PortsOf(t), TreeItems(t, ports), if ports != [] then 1 else 0);
      while pos != TreePorts(t)
        invariant k <= |ports| && DroppingTree(mem.View(), ports, trees, x, k)
        invariant pos == if k < |ports| then PtpTree(t, ports[k]) else TreePorts(t)
        invariant k < |ports| ==> nxt == if k + 1 < |ports| then PtpTree(t, ports[k + 1]) else TreePorts(t)
        decreases |ports| - k
        modifies mem
      {
        DropEntryOfTree(t, pos.p, x, k);
        k := k + 1;
        pos := nxt;
        nxt := mem.Next(nxt, PortsOf(t), TreeItems(t, ports[k..]), if k < |ports| then 1 else 0);
      }
      ghost var m := mem.View();
      assert TreeItems(t, ports[|ports|..]) == [];
      mem.Free(PortsOf(t));
      DroppingTreeEnds(m, mem.View(), ports, trees, x);
      trees := CutAt(trees, x);
    }

    method DropEntryOfTree(t: u16, p: nat, ghost x: nat, ghost k: nat)
      requires k < |ports| && ports[k] == p && x < |trees| && trees[x] == t
      requires DroppingTree(mem.View(), ports, trees, x, k) && DistinctPorts(ports) && CT.LegalTrees(trees)
      modifies mem
      ensures DroppingTree(mem.View(), ports, trees, x, k + 1)
    {
      ghost var m := mem.View();
      assert p in ports[k..];
      mem.ListDel(PtpPort(t, p), TreesOf(p), PortItems(trees, p), x);
      ghost var m1 := mem.View();
      OtherListKept(m, m1, TreesOf(p), PortsOf(t), TreeItems(t, ports[k..]));
      mem.ListDel(PtpTree(t, p), PortsOf(t), TreeItems(t, ports[k..]), 0);
      DroppingTreeStep(m, m1, mem.View(), ports, trees, x, k);
    }
  }

  lemma CreatedMesh(m1: Links, m2: Links, m3: Links, m4: Links)
    requires OnlyIn(Links(map[], map[]), m1, PortsOfBridge) && ListIs(m1, PortsOfBridge, [])
    requires OnlyIn(m1, m2, TreesOfBridge) && ListIs(m2, TreesOfBridge, [])
    requires OnlyIn(m2, m3, PortsOf(0)) && ListIs(m3, PortsOf(0), [])
    requires OnlyIn(m3, m4, TreesOfBridge) && ListIs(m4, TreesOfBridge, [] + [TreeBr(0)])
    ensures Meshed(m4, [], [0])
  {
    var ports: seq<nat>, trees: seq<u16> := [], [0];
    NoStrayKept(Links(map[], map[]), m1, PortsOfBridge, ports, trees);
    NoStrayKept(m1, m2, TreesOfBridge, ports, trees);
    NoStrayKept(m2, m3, PortsOf(0), ports, trees);
    NoStrayKept(m3, m4, TreesOfBridge, ports, trees);
    OtherListKept(m1, m2, TreesOfBridge, PortsOfBridge, []);
    OtherListKept(m2, m3, PortsOf(0), PortsOfBridge, []);
    OtherListKept(m3, m4, TreesOfBridge, PortsOfBridge, []);
    OtherListKept(m3, m4, TreesOfBridge, PortsOf(0), []);
    assert BrPortItems(ports) == [] && BrTreeItems(trees) == [] + [TreeBr(0)] && TreeItems(0, ports) == [];
  }
}
