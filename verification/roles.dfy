/** Port role selection: `updtRolesTree` (section 13.26.23) and the state machine that calls it (13.33). */
module Roles {
  import opened Types
  import opened Vectors

  // ---- Specification functions ----

  /** Ports whose recorded information may make them the Root Port. */
  predicate Eligible(p: Ptp, prt: Port, bid: BridgeId) {
    p.infoIs == IoReceived && prt.restrictedRole.Off? && p.portPriority.desBridge != bid
  }

  function AddCost(a: u32, b: u32): (r: u32)
    ensures a + b < 0x1_0000_0000 ==> r == a + b
    ensures a + b >= 0x1_0000_0000 ==> r < a && r < b
  {
    (a + b) % 0x1_0000_0000
  }

  /** The root path vector of a port: the recorded vector with the cost of the receiving port added. */
  function RootPath(p: Ptp, prt: Port, tree: Tree): Vec {
    var v := p.portPriority;
    if prt.rcvdInternal.On? then
      v.(intCost := AddCost(v.intCost, p.internalCost))
    else if tree.mstid == 0 then
      v.(extCost := AddCost(v.extCost, prt.externalCost), rrootId := tree.bridgeId, intCost := 0)
    else
      v
  }

  /** The selected root vector, the root port's identifier (0 when there is none) and its index. */
  datatype RootChoice = RootChoice(vec: Vec, pid: u16, index: Option<nat>)

  /** Scan of the first `n` ports: a candidate as good as the best so far replaces it. */
  function SelectRoot(tree: Tree, ports: seq<Port>, n: nat): (c: RootChoice)
    requires n <= |tree.ptps| == |ports|
    ensures c.index.Some? ==> c.index.value < n
  {
    if n == 0 then RootChoice(tree.bridgePriority, 0, None)
    else
      var best := SelectRoot(tree, ports, n - 1);
      var p := tree.ptps[n - 1];
      var prt := ports[n - 1];
      var path := RootPath(p, prt, tree);
      if Eligible(p, prt, tree.bridgeId)
         && BetterOrSame(path, best.vec, p.portId, best.pid, tree.mstid == 0)
      then RootChoice(path, p.portId, Some(n - 1))
      else best
  }

  function RootOf(tree: Tree, ports: seq<Port>): (c: RootChoice)
    requires |tree.ptps| == |ports|
    ensures c.index.Some? ==> c.index.value < |ports|
  {
    SelectRoot(tree, ports, |ports|)
  }

  /** The times carried on from the Root Port: one hop less, or one more second of age. */
  function NextRootTimes(tree: Tree, ports: seq<Port>, root: Option<nat>): Times
    requires |tree.ptps| == |ports|
    requires root.Some? ==> root.value < |ports|
  {
    if root.None? then tree.bridgeTimes
    else
      var t := tree.ptps[root.value].portTimes;
      if ports[root.value].rcvdInternal.On? then
        if t.hops > 0 then t.(hops := t.hops - 1) else t
      else t.(messageAge := (t.messageAge + 1) % 0x100)
  }

  function DesignatedVec(root: Vec, bid: BridgeId, p: Ptp, prt: Port, cist: bool): Vec {
    var v := root.(desBridge := bid, desPort := p.portId);
    if cist && prt.sendRSTP.Off? then v.(rrootId := bid) else v
  }

  /** Clauses d) and e): what the port will transmit. */
  function WithDesignated(p: Ptp, prt: Port, root: Vec, times: Times, bid: BridgeId, cist: bool): Ptp {
    p.(designatedPriority := DesignatedVec(root, bid, p, prt, cist),
       designatedTimes := times.(hello := p.portTimes.hello))
  }

  predicate InfoDiffers(p: Ptp, cist: bool) {
    !SamePriorityAndTimers(p.portPriority, p.designatedPriority, p.portTimes, p.designatedTimes, cist)
  }

  /** The port is at the boundary of the region: the tree is an MSTI and the CIST information is external. */
  predicate Boundary(prt: Port, cistPtp: Ptp, cist: bool) {
    !cist && cistPtp.infoIs == IoReceived && prt.infoInternal.Off?
  }

  /** Clauses f) to m): role and update request of one port whose designated vector is set. */
  function WithRole(p: Ptp, prt: Port, cistPtp: Ptp, isRoot: bool, bid: BridgeId, cist: bool): Ptp {
    if p.infoIs == IoDisabled then p.(selectedRole := RoleDisabled)
    else if Boundary(prt, cistPtp, cist) then
      p.(selectedRole := if cistPtp.selectedRole == RoleRoot then RoleMaster else cistPtp.selectedRole,
         updtInfo := if InfoDiffers(p, false) then On else p.updtInfo)
    else if p.infoIs == IoAged then p.(selectedRole := RoleDesignated, updtInfo := On)
    else if p.infoIs == IoMine then
      p.(selectedRole := RoleDesignated, updtInfo := if InfoDiffers(p, cist) then On else p.updtInfo)
    else if isRoot then p.(selectedRole := RoleRoot, updtInfo := Off)
    else if BetterOrSame(p.portPriority, p.designatedPriority, 0, 0, cist) then
      p.(selectedRole := if p.portPriority.desBridge != bid then RoleAlternate else RoleBackup,
         updtInfo := Off)
    else p.(selectedRole := RoleDesignated, updtInfo := On)
  }

  /** Role assignment leaves everything but the role and the update request alone. */
  lemma RoleKeepsRest(p: Ptp, prt: Port, cistPtp: Ptp, isRoot: bool, bid: BridgeId, cist: bool)
    ensures var q := WithRole(p, prt, cistPtp, isRoot, bid, cist);
            q == p.(selectedRole := q.selectedRole, updtInfo := q.updtInfo)
  {
  }

  function Assigned(p: Ptp, prt: Port, cistPtp: Ptp, isRoot: bool, root: Vec, times: Times, bid: BridgeId,
                    cist: bool): Ptp {
    WithRole(WithDesignated(p, prt, root, times, bid, cist), prt, cistPtp, isRoot, bid, cist)
  }

  /** The tree after role selection. */
  function UpdatedTree(tree: Tree, ports: seq<Port>, cistRow: seq<Ptp>): (t: Tree)
    requires |tree.ptps| == |ports| == |cistRow|
    ensures |t.ptps| == |ports|
  {
    var c := RootOf(tree, ports);
    var times := NextRootTimes(tree, ports, c.index);
    tree.(rootPriority := c.vec, rootPortId := c.pid, rootTimes := times,
          ptps := seq(|ports|, i requires 0 <= i < |ports| =>
                        Assigned(tree.ptps[i], ports[i], cistRow[i], c.index == Some(i),
                                 c.vec, times, tree.bridgeId, tree.mstid == 0)))
  }

  /** `syncMaster` (section 13.26.18) on one MSTI port. */
  function SyncedMaster(p: Ptp, prt: Port): Ptp {
    if prt.infoInternal.On? then p.(agree := Off, agreed := Off, synced := Off, sync := On) else p
  }

  /** The regional root changed and the region is not, or was not, the one that holds the CIST Root. */
  predicate MasterMustSync(before: Tree, after: Tree) {
    && before.mstid == 0 && after.rootPriority.rrootId != before.rootPriority.rrootId
    && (after.rootPriority.extCost != 0 || before.rootPriority.extCost != 0)
  }

  /** Whether the new CIST role of a port forces the MSTIs of that port to select again. */
  predicate ForcesReselect(before: Tree, after: Tree, i: nat)
    requires i < |before.ptps| == |after.ptps|
  {
    before.mstid == 0 && before.ptps[i].infoIs == IoReceived && after.ptps[i].selectedRole != before.ptps[i].role
  }

  function FollowCist(p: Ptp, prt: Port, mustSync: bool, reselect: bool): Ptp {
    var q := if mustSync then SyncedMaster(p, prt) else p;
    if reselect then q.(reselect := On) else q
  }

  /** An MSTI after the roles of the CIST have been selected. */
  function FollowingTree(u: Tree, ports: seq<Port>, before: Tree, after: Tree): (v: Tree)
    requires |u.ptps| == |ports| == |before.ptps| == |after.ptps|
    ensures |v.ptps| == |ports|
  {
    u.(ptps := seq(|ports|, i requires 0 <= i < |ports| =>
                     FollowCist(u.ptps[i], ports[i], MasterMustSync(before, after), ForcesReselect(before, after, i))))
  }

  /** All trees after `updtRolesTree` on tree `t`. */
  ghost function UpdatedTrees(trees: seq<Tree>, ports: seq<Port>, t: nat): (r: seq<Tree>)
    requires MeshShape(ports, trees) && t < |trees|
    ensures |r| == |trees|
  {
    var before := trees[t];
    var after := UpdatedTree(before, ports, trees[0].ptps);
    seq(|trees|, u requires 0 <= u < |trees| =>
          if u == t then after
          else if t == 0 then FollowingTree(trees[u], ports, before, after)
          else trees[u])
  }

  // ---- The stages of the routine as functions ----

  function DesignatedTree(tree: Tree, ports: seq<Port>, vec: Vec, pid: u16, times: Times): (r: Tree)
    requires |tree.ptps| == |ports|
    ensures |r.ptps| == |ports|
  {
    tree.(rootPriority := vec, rootPortId := pid, rootTimes := times,
          ptps := seq(|ports|, i requires 0 <= i < |ports| =>
                        WithDesignated(tree.ptps[i], ports[i], vec, times, tree.bridgeId, tree.mstid == 0)))
  }

  function SyncedTree(tree: Tree, ports: seq<Port>): Tree
    requires |tree.ptps| == |ports|
  {
    tree.(ptps := seq(|ports|, i requires 0 <= i < |ports| => SyncedMaster(tree.ptps[i], ports[i])))
  }

  ghost function SyncedTrees(trees: seq<Tree>, ports: seq<Port>): (r: seq<Tree>)
    requires RowsFit(ports, trees) && |trees| > 0
    ensures |r| == |trees| && RowsFit(ports, r)
  {
    seq(|trees|, u requires 0 <= u < |trees| => if u == 0 then trees[u] else SyncedTree(trees[u], ports))
  }

  function ReselectedTree(tree: Tree, i: nat): Tree
    requires i < |tree.ptps|
  {
    tree.(ptps := tree.ptps[i := tree.ptps[i].(reselect := On)])
  }

  ghost function ReselectedColumn(trees: seq<Tree>, i: nat): (r: seq<Tree>)
    requires forall u :: 0 <= u < |trees| ==> i < |trees[u].ptps|
    ensures |r| == |trees|
  {
    seq(|trees|, u requires 0 <= u < |trees| => if u == 0 then trees[u] else ReselectedTree(trees[u], i))
  }

  /** Role assignment of port `i`, and the request it makes of the MSTIs when the tree is the CIST. */
  ghost function RoleStep(trees: seq<Tree>, ports: seq<Port>, t: nat, root: Option<nat>, i: nat): (r: seq<Tree>)
    requires RowsFit(ports, trees) && |trees| > 0 && t < |trees| && i < |ports|
    ensures |r| == |trees| && RowsFit(ports, r)
  {
    var tree := trees[t];
    var p := WithRole(tree.ptps[i], ports[i], trees[0].ptps[i], root == Some(i), tree.bridgeId, t == 0);
    var after := trees[t := tree.(ptps := tree.ptps[i := p])];
    if t == 0 && p.infoIs == IoReceived && p.selectedRole != p.role then ReselectedColumn(after, i) else after
  }

  ghost function RolesPrefix(trees: seq<Tree>, ports: seq<Port>, t: nat, root: Option<nat>, n: nat): (r: seq<Tree>)
    requires RowsFit(ports, trees) && |trees| > 0 && t < |trees| && n <= |ports|
    ensures |r| == |trees| && RowsFit(ports, r)
  {
    if n == 0 then trees else RoleStep(RolesPrefix(trees, ports, t, root, n - 1), ports, t, root, n - 1)
  }

  /** What port `i` of tree `u` looks like once the roles of the first `n` ports of tree `t` are assigned. */
  ghost function RoledPtp(trees: seq<Tree>, ports: seq<Port>, t: nat, root: Option<nat>, n: nat, u: nat, i: nat): Ptp
    requires RowsFit(ports, trees) && |trees| > 0 && t < |trees| && u < |trees| && i < |ports|
  {
    var p := WithRole(trees[t].ptps[i], ports[i], trees[0].ptps[i], root == Some(i), trees[t].bridgeId, t == 0);
    if i >= n then trees[u].ptps[i]
    else if u == t then p
    else if t == 0 && p.infoIs == IoReceived && p.selectedRole != p.role then trees[u].ptps[i].(reselect := On)
    else trees[u].ptps[i]
  }

  lemma RoleStepTree(trees: seq<Tree>, ports: seq<Port>, t: nat, root: Option<nat>, i: nat, u: nat)
    requires RowsFit(ports, trees) && t < |trees| && i < |ports| && u < |trees|
    ensures var r := RoleStep(trees, ports, t, root, i);
            r[u] == trees[u].(ptps := r[u].ptps)
  {
  }

  lemma {:induction false} RolesPrefixTree(trees: seq<Tree>, ports: seq<Port>, t: nat, root: Option<nat>, n: nat,
                                           u: nat)
    requires RowsFit(ports, trees) && |trees| > 0 && t < |trees| && n <= |ports| && u < |trees|
    ensures var r := RolesPrefix(trees, ports, t, root, n);
            r[u] == trees[u].(ptps := r[u].ptps)
  {
    if n > 0 {
      RolesPrefixTree(trees, ports, t, root, n - 1, u);
      RoleStepTree(RolesPrefix(trees, ports, t, root, n - 1), ports, t, root, n - 1, u);
    }
  }

  lemma RoleStepAt(trees: seq<Tree>, ports: seq<Port>, t: nat, root: Option<nat>, k: nat, u: nat, i: nat)
    requires RowsFit(ports, trees) && t < |trees| && k < |ports| && u < |trees| && i < |ports|
    ensures RoleStep(trees, ports, t, root, k)[u].ptps[i]
            == if i == k then RoledPtp(trees, ports, t, root, k + 1, u, i) else trees[u].ptps[i]
  {
  }

  lemma {:induction false} RolesPrefixAt(trees: seq<Tree>, ports: seq<Port>, t: nat, root: Option<nat>, n: nat, u: nat,
                                         i: nat)
    requires RowsFit(ports, trees) && |trees| > 0 && t < |trees| && n <= |ports| && u < |trees| && i < |ports|
    ensures RolesPrefix(trees, ports, t, root, n)[u].ptps[i] == RoledPtp(trees, ports, t, root, n, u, i)
  {
    if n > 0 {
      var r := RolesPrefix(trees, ports, t, root, n - 1);
      RoleStepAt(r, ports, t, root, n - 1, u, i);
      RolesPrefixAt(trees, ports, t, root, n - 1, u, i);
      if i == n - 1 {
        RolesPrefixAt(trees, ports, t, root, n - 1, t, i);
        RolesPrefixAt(trees, ports, t, root, n - 1, 0, i);
        RolesPrefixTree(trees, ports, t, root, n - 1, t);
        SameRoled(trees, r, ports, t, root, n, u, i);
      }
    }
  }

  lemma SameRoled(trees: seq<Tree>, r: seq<Tree>, ports: seq<Port>, t: nat, root: Option<nat>, n: nat, u: nat, i: nat)
    requires RowsFit(ports, trees) && RowsFit(ports, r) && |trees| == |r| && t < |trees| && u < |trees| && i < |ports|
    requires r[t].ptps[i] == trees[t].ptps[i] && r[0].ptps[i] == trees[0].ptps[i] && r[u].ptps[i] == trees[u].ptps[i]
    requires r[t].bridgeId == trees[t].bridgeId
    ensures RoledPtp(r, ports, t, root, n, u, i) == RoledPtp(trees, ports, t, root, n, u, i)
  {
  }

  ghost function MarkedTrees(trees: seq<Tree>, ports: seq<Port>, t: nat): (r: seq<Tree>)
    requires MeshShape(ports, trees) && t < |trees|
    ensures |r| == |trees| && MeshShape(ports, r)
  {
    var c := RootOf(trees[t], ports);
    var times := NextRootTimes(trees[t], ports, c.index);
    var marked := trees[t := DesignatedTree(trees[t], ports, c.vec, c.pid, times)];
    if MasterMustSync(trees[t], marked[t]) then SyncedTrees(marked, ports) else marked
  }

  lemma MarkedAt(trees: seq<Tree>, ports: seq<Port>, t: nat, u: nat, i: nat)
    requires MeshShape(ports, trees) && t < |trees| && u < |trees| && i < |ports|
    ensures var c := RootOf(trees[t], ports);
            var times := NextRootTimes(trees[t], ports, c.index);
            var must := MasterMustSync(trees[t], UpdatedTree(trees[t], ports, trees[0].ptps));
            MarkedTrees(trees, ports, t)[u].ptps[i] ==
            if u == t then WithDesignated(trees[t].ptps[i], ports[i], c.vec, times, trees[t].bridgeId, t == 0)
            else if must && u > 0 then SyncedMaster(trees[u].ptps[i], ports[i])
            else trees[u].ptps[i]
  {
  }

  /** On the CIST no port is a boundary port, so the CIST entry of the port plays no part. */
  lemma CistRoleLocal(p: Ptp, prt: Port, cp1: Ptp, cp2: Ptp, isRoot: bool, bid: BridgeId)
    ensures WithRole(p, prt, cp1, isRoot, bid, true) == WithRole(p, prt, cp2, isRoot, bid, true)
  {
  }

  lemma StageAtSelf(trees: seq<Tree>, ports: seq<Port>, t: nat, i: nat)
    requires MeshShape(ports, trees) && t < |trees| && i < |ports|
    ensures RoledPtp(MarkedTrees(trees, ports, t), ports, t, RootOf(trees[t], ports).index, |ports|, t, i)
            == UpdatedTrees(trees, ports, t)[t].ptps[i]
  {
    MarkedAt(trees, ports, t, t, i);
    MarkedAt(trees, ports, t, 0, i);
    var m := MarkedTrees(trees, ports, t);
    assert m[t].bridgeId == trees[t].bridgeId;
    if t == 0 {
      CistRoleLocal(m[t].ptps[i], ports[i], m[0].ptps[i], trees[0].ptps[i], RootOf(trees[t], ports).index == Some(i),
                    trees[t].bridgeId);
    } else {
      assert m[0].ptps[i] == trees[0].ptps[i];
    }
  }

  lemma StageAtOther(trees: seq<Tree>, ports: seq<Port>, t: nat, u: nat, i: nat)
    requires MeshShape(ports, trees) && t < |trees| && u < |trees| && i < |ports| && u != t
    ensures RoledPtp(MarkedTrees(trees, ports, t), ports, t, RootOf(trees[t], ports).index, |ports|, u, i)
            == UpdatedTrees(trees, ports, t)[u].ptps[i]
  {
    MarkedAt(trees, ports, t, u, i);
    if t == 0 {
      StageAtSelf(trees, ports, 0, i);
      UpdateKeepsInfo(trees[0], ports, trees[0].ptps, i);
      OtherFollows(MarkedTrees(trees, ports, 0), ports, RootOf(trees[0], ports).index, u, i);
      FollowersAt(trees, ports, u, i);
    }
  }

  lemma UpdateKeepsInfo(tree: Tree, ports: seq<Port>, cistRow: seq<Ptp>, i: nat)
    requires |tree.ptps| == |ports| == |cistRow| && i < |ports|
    ensures var p, q := tree.ptps[i], UpdatedTree(tree, ports, cistRow).ptps[i];
            q.infoIs == p.infoIs && q.role == p.role
  {
  }

  /** A request for reselection depends on the CIST entry of the port. */
  lemma OtherFollows(m: seq<Tree>, ports: seq<Port>, root: Option<nat>, u: nat, i: nat)
    requires RowsFit(ports, m) && 0 < u < |m| && i < |ports|
    ensures var p := RoledPtp(m, ports, 0, root, |ports|, 0, i);
            RoledPtp(m, ports, 0, root, |ports|, u, i) ==
            if p.infoIs == IoReceived && p.selectedRole != p.role then m[u].ptps[i].(reselect := On) else m[u].ptps[i]
  {
  }

  lemma FollowersAt(trees: seq<Tree>, ports: seq<Port>, u: nat, i: nat)
    requires MeshShape(ports, trees) && 0 < u < |trees| && i < |ports|
    ensures var after := UpdatedTree(trees[0], ports, trees[0].ptps);
            UpdatedTrees(trees, ports, 0)[u].ptps[i] ==
            FollowCist(trees[u].ptps[i], ports[i], MasterMustSync(trees[0], after), ForcesReselect(trees[0], after, i))
    ensures UpdatedTrees(trees, ports, 0)[0] == UpdatedTree(trees[0], ports, trees[0].ptps)
  {
  }

  /** Designating, resynchronising and assigning roles in turn gives `UpdatedTrees`. */
  lemma StagesCompose(trees: seq<Tree>, ports: seq<Port>, t: nat)
    requires MeshShape(ports, trees) && t < |trees|
    ensures RolesPrefix(MarkedTrees(trees, ports, t), ports, t, RootOf(trees[t], ports).index, |ports|)
            == UpdatedTrees(trees, ports, t)
  {
    var root := RootOf(trees[t], ports).index;
    var m := MarkedTrees(trees, ports, t);
    var r := RolesPrefix(m, ports, t, root, |ports|);
    var s := UpdatedTrees(trees, ports, t);
    forall u | 0 <= u < |trees|
      ensures r[u] == s[u]
    {
      forall i | 0 <= i < |ports|
        ensures r[u].ptps[i] == s[u].ptps[i]
      {
        RolesPrefixAt(m, ports, t, root, |ports|, u, i);
        if u == t { StageAtSelf(trees, ports, t, i); } else { StageAtOther(trees, ports, t, u, i); }
      }
      assert r[u].ptps == s[u].ptps;
      RolesPrefixTree(m, ports, t, root, |ports|, u);
    }
  }

  // ---- The routine itself: loops over the bridge object ----

  /** The minimum search of clauses a) and b). */
  method FindRoot(tree: Tree, ports: seq<Port>) returns (vec: Vec, pid: u16, root: Option<nat>)
    requires |tree.ptps| == |ports|
    ensures RootChoice(vec, pid, root) == RootOf(tree, ports)
  {
    vec, pid, root := tree.bridgePriority, 0, None;
    for i := 0 to |ports|
      invariant RootChoice(vec, pid, root) == SelectRoot(tree, ports, i)
    {
      var p, prt := tree.ptps[i], ports[i];
      if p.infoIs == IoReceived && prt.restrictedRole.Off? && p.portPriority.desBridge != tree.bridgeId {
        var path := p.portPriority;
        if prt.rcvdInternal.On? {
          path := path.(intCost := AddCost(path.intCost, p.internalCost));
        } else if tree.mstid == 0 {
          path := path.(extCost := AddCost(path.extCost, prt.externalCost), rrootId := tree.bridgeId, intCost := 0);
        }
        if BetterOrSame(path, vec, p.portId, pid, tree.mstid == 0) {
          vec, pid, root := path, p.portId, Some(i);
        }
      }
    }
  }

  /** Clauses d) and e) for every port of tree `t`. */
  method SetDesignated(b: Bridge, t: nat, vec: Vec, pid: u16, times: Times)
    requires b.Valid() && t < |b.trees|
    modifies b`trees
    ensures b.trees == old(b.trees)[t := DesignatedTree(old(b.trees[t]), b.ports, vec, pid, times)]
  {
    var tree := b.trees[t];
    var row, bid, cist := tree.ptps, tree.bridgeId, tree.mstid == 0;
    for i := 0 to |b.ports|
      invariant |row| == |b.ports|
      invariant forall j :: 0 <= j < i ==> row[j] == WithDesignated(tree.ptps[j], b.ports[j], vec, times, bid, cist)
      invariant forall j :: i <= j < |row| ==> row[j] == tree.ptps[j]
    {
      var v := vec.(desBridge := bid, desPort := row[i].portId);
      if cist && b.ports[i].sendRSTP.Off? { v := v.(rrootId := bid); }
      row := row[i := row[i].(designatedPriority := v, designatedTimes := times.(hello := row[i].portTimes.hello))];
    }
    var after := tree.(rootPriority := vec, rootPortId := pid, rootTimes := times, ptps := row);
    assert row == DesignatedTree(tree, b.ports, vec, pid, times).ptps;
    b.trees := b.trees[t := after];
  }

  /** `syncMaster`: resynchronises every MSTI port whose information is internal. */
  method SyncMaster(b: Bridge)
    requires b.Valid()
    modifies b`trees
    ensures b.trees == SyncedTrees(old(b.trees), b.ports)
  {
    for u := 1 to |b.trees|
      invariant b.Valid() && |b.trees| == |old(b.trees)|
      invariant forall v :: v == 0 || u <= v < |b.trees| ==> b.trees[v] == old(b.trees[v])
      invariant forall v :: 0 < v < u ==> b.trees[v] == SyncedTree(old(b.trees[v]), b.ports)
    {
      var tree := b.trees[u];
      var row := tree.ptps;
      for i := 0 to |b.ports|
        invariant |row| == |b.ports|
        invariant forall j :: 0 <= j < i ==> row[j] == SyncedMaster(tree.ptps[j], b.ports[j])
        invariant forall j :: i <= j < |row| ==> row[j] == tree.ptps[j]
      {
        if b.ports[i].infoInternal.On? {
          row := row[i := row[i].(agree := Off, agreed := Off, synced := Off, sync := On)];
        }
      }
      assert row == SyncedTree(tree, b.ports).ptps;
      b.trees := b.trees[u := tree.(ptps := row)];
    }
  }

  /** `reselectMSTIs`: requests role selection for every MSTI of port `i`. */
  method ReselectMstis(b: Bridge, i: nat)
    requires b.Valid() && i < |b.ports|
    modifies b`trees
    ensures b.trees == ReselectedColumn(old(b.trees), i)
  {
    for u := 1 to |b.trees|
      invariant b.Valid() && |b.trees| == |old(b.trees)|
      invariant forall v :: v == 0 || u <= v < |b.trees| ==> b.trees[v] == old(b.trees[v])
      invariant forall v :: 0 < v < u ==> b.trees[v] == ReselectedTree(old(b.trees[v]), i)
    {
      var row := b.trees[u].ptps;
      b.trees := b.trees[u := b.trees[u].(ptps := row[i := row[i].(reselect := On)])];
    }
  }

  /** Clauses f) to m) for one port. */
  method ChooseRole(q: Ptp, prt: Port, cp: Ptp, isRoot: bool, bid: BridgeId, cist: bool) returns (p: Ptp)
    ensures p == WithRole(q, prt, cp, isRoot, bid, cist)
  {
    p := q;
    if p.infoIs == IoDisabled {
      p := p.(selectedRole := RoleDisabled);
    } else if !cist && cp.infoIs == IoReceived && prt.infoInternal.Off? {
      p := p.(selectedRole := if cp.selectedRole == RoleRoot then RoleMaster else cp.selectedRole);
      if InfoDiffers(p, false) { p := p.(updtInfo := On); }
    } else if p.infoIs == IoAged {
      p := p.(selectedRole := RoleDesignated, updtInfo := On);
    } else if p.infoIs == IoMine {
      p := p.(selectedRole := RoleDesignated);
      if InfoDiffers(p, cist) { p := p.(updtInfo := On); }
    } else if isRoot {
      p := p.(selectedRole := RoleRoot, updtInfo := Off);
    } else if BetterOrSame(p.portPriority, p.designatedPriority, 0, 0, cist) {
      p := p.(selectedRole := if p.portPriority.desBridge != bid then RoleAlternate else RoleBackup);
      p := p.(updtInfo := Off);
    } else {
      p := p.(selectedRole := RoleDesignated, updtInfo := On);
    }
  }

  /** Clauses f) to m) for every port of tree `t`, in list order. */
  method AssignRoles(b: Bridge, t: nat, root: Option<nat>)
    requires b.Valid() && t < |b.trees|
    modifies b`trees
    ensures b.Valid()
    ensures b.trees == RolesPrefix(old(b.trees), b.ports, t, root, |b.ports|)
  {
    for i := 0 to |b.ports|
      invariant b.trees == RolesPrefix(old(b.trees), b.ports, t, root, i)
      invariant b.Valid() && |b.trees| == |old(b.trees)|
    {
      var tree := b.trees[t];
      var p := ChooseRole(tree.ptps[i], b.ports[i], b.trees[0].ptps[i], root == Some(i), tree.bridgeId, t == 0);
      b.trees := b.trees[t := tree.(ptps := tree.ptps[i := p])];
      if t == 0 && p.infoIs == IoReceived && p.selectedRole != p.role {
        ReselectMstis(b, i);
      }
    }
  }

  /** Clause c). */
  method FindRootTimes(tree: Tree, ports: seq<Port>, root: Option<nat>) returns (times: Times)
    requires |tree.ptps| == |ports|
    requires root.Some? ==> root.value < |ports|
    ensures times == NextRootTimes(tree, ports, root)
  {
    times := tree.bridgeTimes;
    if root.Some? {
      times := tree.ptps[root.value].portTimes;
      if ports[root.value].rcvdInternal.On? {
        if times.hops > 0 { times := times.(hops := times.hops - 1); }
      } else {
        times := times.(messageAge := (times.messageAge + 1) % 0x100);
      }
    }
  }

  /** Clauses a) to e) and the resynchronisation of the MSTIs. */
  method MarkDesignated(b: Bridge, t: nat) returns (root: Option<nat>)
    requires b.Valid() && t < |b.trees|
    modifies b`trees
    ensures root == RootOf(old(b.trees[t]), b.ports).index
    ensures b.trees == MarkedTrees(old(b.trees), b.ports, t)
  {
    var prev := b.trees[t].rootPriority;
    var vec, pid;
    vec, pid, root := FindRoot(b.trees[t], b.ports);
    var times := FindRootTimes(b.trees[t], b.ports, root);
    SetDesignated(b, t, vec, pid, times);
    if t == 0 && vec.rrootId != prev.rrootId && (vec.extCost != 0 || prev.extCost != 0) {
      SyncMaster(b);
    }
  }

  /** Section 13.26.23 on tree `t` of the bridge. */
  method UpdtRolesTree(b: Bridge, t: nat)
    requires b.Valid() && t < |b.trees|
    modifies b`trees
    ensures b.Valid()
    ensures b.trees == UpdatedTrees(old(b.trees), b.ports, t)
  {
    var root := MarkDesignated(b, t);
    AssignRoles(b, t, root);
    StagesCompose(old(b.trees), b.ports, t);
  }
}
