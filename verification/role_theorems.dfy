/** What role selection guarantees: minimality of the root vector and the clauses of section 13.26.23. */
module RoleTheorems {
  import opened Types
  import opened Vectors
  import opened Roles

  // ---- Clauses a) and b): the root vector is the best candidate ----

  /** The bridge's own vector with port identifier 0, or the root path vector of an eligible port. */
  ghost predicate IsCandidate(tree: Tree, ports: seq<Port>, n: nat, v: Vec, p: u16)
    requires n <= |tree.ptps| == |ports|
  {
    || (v == tree.bridgePriority && p == 0)
    || exists i :: 0 <= i < n && FromPort(tree, ports, i, v, p)
  }

  predicate FromPort(tree: Tree, ports: seq<Port>, i: nat, v: Vec, p: u16)
    requires i < |tree.ptps| == |ports|
  {
    && Eligible(tree.ptps[i], ports[i], tree.bridgeId)
    && v == RootPath(tree.ptps[i], ports[i], tree) && p == tree.ptps[i].portId
  }

  lemma {:induction false} ScanIsMinimum(tree: Tree, ports: seq<Port>, n: nat)
    requires n <= |tree.ptps| == |ports|
    ensures var c := SelectRoot(tree, ports, n);
            && IsCandidate(tree, ports, n, c.vec, c.pid)
            && (c.index.Some? ==> FromPort(tree, ports, c.index.value, c.vec, c.pid))
            && (c.index.None? ==> c.vec == tree.bridgePriority && c.pid == 0)
            && forall v, p :: IsCandidate(tree, ports, n, v, p) ==> BetterOrSame(c.vec, v, c.pid, p, tree.mstid == 0)
  {
    var cist := tree.mstid == 0;
    var c := SelectRoot(tree, ports, n);
    if n > 0 {
      ScanIsMinimum(tree, ports, n - 1);
      var best := SelectRoot(tree, ports, n - 1);
      var path, pid := RootPath(tree.ptps[n - 1], ports[n - 1], tree), tree.ptps[n - 1].portId;
      BetterOrSameTotal(path, best.vec, pid, best.pid, cist);
      BetterOrSameTotal(path, path, pid, pid, cist);
      assert c.index.Some? ==> FromPort(tree, ports, c.index.value, c.vec, c.pid);
      forall v, p | IsCandidate(tree, ports, n, v, p)
        ensures BetterOrSame(c.vec, v, c.pid, p, cist)
      {
        if IsCandidate(tree, ports, n - 1, v, p) && c != best {
          BetterOrSameTransitive(c.vec, best.vec, v, c.pid, best.pid, p, cist);
        }
      }
    }
  }

  /** The vector and port identifier that role selection leaves in the tree are the best candidate. */
  lemma RootIsMinimum(tree: Tree, ports: seq<Port>, cistRow: seq<Ptp>)
    requires |tree.ptps| == |ports| == |cistRow|
    ensures var after := UpdatedTree(tree, ports, cistRow);
            && IsCandidate(tree, ports, |ports|, after.rootPriority, after.rootPortId)
            && forall v, p :: IsCandidate(tree, ports, |ports|, v, p) ==>
                 BetterOrSame(after.rootPriority, v, after.rootPortId, p, tree.mstid == 0)
  {
    ScanIsMinimum(tree, ports, |ports|);
  }

  /** Any candidate that is as good as all candidates agrees with the selected one on every compared component. */
  lemma MinimumIsUnique(tree: Tree, ports: seq<Port>, v: Vec, p: u16)
    requires |tree.ptps| == |ports|
    requires IsCandidate(tree, ports, |ports|, v, p)
    requires forall w, q :: IsCandidate(tree, ports, |ports|, w, q) ==> BetterOrSame(v, w, p, q, tree.mstid == 0)
    ensures var c := RootOf(tree, ports);
            Key(v, p, tree.mstid == 0) == Key(c.vec, c.pid, tree.mstid == 0)
  {
    ScanIsMinimum(tree, ports, |ports|);
    var c := RootOf(tree, ports);
    BetterOrSameAntisymmetric(v, c.vec, p, c.pid, tree.mstid == 0);
  }

  /** There is a Root Port exactly when some eligible port offers a vector as good as the bridge's own. */
  lemma RootPortIffOffer(tree: Tree, ports: seq<Port>)
    requires |tree.ptps| == |ports|
    ensures RootOf(tree, ports).index.Some? <==>
            exists i :: 0 <= i < |ports| && Eligible(tree.ptps[i], ports[i], tree.bridgeId)
              && BetterOrSame(RootPath(tree.ptps[i], ports[i], tree), tree.bridgePriority, tree.ptps[i].portId, 0,
                              tree.mstid == 0)
  {
    ScanIsMinimum(tree, ports, |ports|);
    var c := RootOf(tree, ports);
    var cist := tree.mstid == 0;
    assert IsCandidate(tree, ports, |ports|, tree.bridgePriority, 0);
    if c.index.None? {
      forall i | 0 <= i < |ports| && Eligible(tree.ptps[i], ports[i], tree.bridgeId)
        ensures !BetterOrSame(RootPath(tree.ptps[i], ports[i], tree), tree.bridgePriority, tree.ptps[i].portId, 0, cist)
      {
        var v, p := RootPath(tree.ptps[i], ports[i], tree), tree.ptps[i].portId;
        assert FromPort(tree, ports, i, v, p);
        if BetterOrSame(v, tree.bridgePriority, p, 0, cist) {
          OfferIsTaken(tree, ports, |ports|, i);
        }
      }
    }
  }

  lemma {:induction false} OfferIsTaken(tree: Tree, ports: seq<Port>, n: nat, i: nat)
    requires i < n <= |tree.ptps| == |ports|
    requires Eligible(tree.ptps[i], ports[i], tree.bridgeId)
    requires BetterOrSame(RootPath(tree.ptps[i], ports[i], tree), tree.bridgePriority, tree.ptps[i].portId, 0,
                          tree.mstid == 0)
    ensures SelectRoot(tree, ports, n).index.Some?
  {
    if i < n - 1 {
      OfferIsTaken(tree, ports, n - 1, i);
    } else {
      ScanIsMinimum(tree, ports, n - 1);
    }
  }

  // ---- Clauses f) to m) ----

  datatype Clause = F | G | H | I | J | K | L | M

  /** The condition under which each clause assigns the role of port `i`, read off the state after selection. */
  predicate Applies(c: Clause, tree: Tree, ports: seq<Port>, cistRow: seq<Ptp>, i: nat)
    requires |tree.ptps| == |ports| == |cistRow| && i < |ports|
  {
    var cist := tree.mstid == 0;
    var p := tree.ptps[i];
    var q := UpdatedTree(tree, ports, cistRow).ptps[i];
    var boundary := !cist && cistRow[i].infoIs == IoReceived && ports[i].infoInternal.Off?;
    var received := p.infoIs == IoReceived && !boundary;
    var other := received && RootOf(tree, ports).index != Some(i);
    match c
    case F => p.infoIs == IoDisabled
    case G => p.infoIs != IoDisabled && boundary
    case H => p.infoIs == IoAged && !boundary
    case I => p.infoIs == IoMine && !boundary
    case J => received && RootOf(tree, ports).index == Some(i)
    case K => other && !StrictlyBetter(q.designatedPriority, q.portPriority, cist)
      && p.portPriority.desBridge != tree.bridgeId
    case L => other && !StrictlyBetter(q.designatedPriority, q.portPriority, cist)
      && p.portPriority.desBridge == tree.bridgeId
    case M => other && StrictlyBetter(q.designatedPriority, q.portPriority, cist)
  }

  function RoleOf(c: Clause, cistRole: Role): Role {
    match c
    case F => RoleDisabled
    case G => if cistRole == RoleRoot then RoleMaster else cistRole
    case J => RoleRoot
    case K => RoleAlternate
    case L => RoleBackup
    case _ => RoleDesignated
  }

  /** Exactly one clause applies to each port, it fixes the selected role, and the port asks for an update of
      its own information exactly as that clause says. */
  lemma ExactlyOneClause(tree: Tree, ports: seq<Port>, cistRow: seq<Ptp>, i: nat) returns (c: Clause)
    requires |tree.ptps| == |ports| == |cistRow| && i < |ports|
    ensures forall d :: Applies(d, tree, ports, cistRow, i) <==> d == c
    ensures var p := tree.ptps[i];
            var q := UpdatedTree(tree, ports, cistRow).ptps[i];
            && q.selectedRole == RoleOf(c, cistRow[i].selectedRole)
            && q.updtInfo == match c {
                 case F => p.updtInfo
                 case G => if InfoDiffers(q, false) then On else p.updtInfo
                 case I => if InfoDiffers(q, tree.mstid == 0) then On else p.updtInfo
                 case H => On
                 case M => On
                 case _ => Off
               }
  {
    var p := tree.ptps[i];
    var q := UpdatedTree(tree, ports, cistRow).ptps[i];
    var cist := tree.mstid == 0;
    if p.infoIs == IoDisabled { c := F; }
    else if Boundary(ports[i], cistRow[i], cist) { c := G; }
    else if p.infoIs == IoAged { c := H; }
    else if p.infoIs == IoMine { c := I; }
    else if RootOf(tree, ports).index == Some(i) { c := J; }
    else if StrictlyBetter(q.designatedPriority, q.portPriority, cist) { c := M; }
    else if p.portPriority.desBridge != tree.bridgeId { c := K; }
    else { c := L; }
  }

  /** No two ports of a tree are selected as Root Port, and only the port with the best vector is. */
  lemma AtMostOneRootPort(tree: Tree, ports: seq<Port>, cistRow: seq<Ptp>, i: nat)
    requires |tree.ptps| == |ports| == |cistRow| && i < |ports|
    requires UpdatedTree(tree, ports, cistRow).ptps[i].selectedRole == RoleRoot
    ensures RootOf(tree, ports).index == Some(i)
    ensures Eligible(tree.ptps[i], ports[i], tree.bridgeId)
  {
    var c := ExactlyOneClause(tree, ports, cistRow, i);
    assert Applies(c, tree, ports, cistRow, i);
    ScanIsMinimum(tree, ports, |ports|);
  }

  /** The Master role is never selected on the CIST. */
  lemma NoMasterOnCist(tree: Tree, ports: seq<Port>, cistRow: seq<Ptp>, i: nat)
    requires |tree.ptps| == |ports| == |cistRow| && i < |ports| && tree.mstid == 0
    ensures UpdatedTree(tree, ports, cistRow).ptps[i].selectedRole != RoleMaster
  {
    var c := ExactlyOneClause(tree, ports, cistRow, i);
    assert Applies(c, tree, ports, cistRow, i);
  }
}
