/** Reading and writing the bridge object one record at a time. A routine that works on one port's column of per-tree
    entries, or on one tree's row, is specified by the column or row it leaves; everything else is as in a snapshot. */
module BridgeObject {
  import opened Types
  import PI = PortInfo
  import RT = RoleTransitions

  datatype Snapshot = Snapshot(ports: seq<Port>, trees: seq<Tree>)

  ghost function Now(b: Bridge): Snapshot
    reads b
  {
    Snapshot(b.ports, b.trees)
  }

  ghost predicate Sound(was: Snapshot) {
    MeshShape(was.ports, was.trees)
  }

  // ---- Columns ----

  ghost function ColumnIn(was: Snapshot, i: nat): (c: PI.Column)
    requires Sound(was) && i < |was.ports|
    ensures |c.ptps| == |was.trees|
  {
    PI.Column(was.ports[i], seq(|was.trees|, u requires 0 <= u < |was.trees| => was.trees[u].ptps[i]))
  }

  ghost function WithColumn(trees: seq<Tree>, i: nat, ptps: seq<Ptp>): (r: seq<Tree>)
    requires |trees| == |ptps| && forall u :: 0 <= u < |trees| ==> i < |trees[u].ptps|
    ensures |r| == |trees|
  {
    seq(|trees|, u requires 0 <= u < |trees| => trees[u].(ptps := trees[u].ptps[i := ptps[u]]))
  }

  /** The bridge is as in `was`, except that the column of port `i` is `c`. */
  ghost predicate Holds(b: Bridge, was: Snapshot, i: nat, c: PI.Column)
    reads b
  {
    && Sound(was) && i < |was.ports| && |c.ptps| == |was.trees|
    && b.ports == was.ports[i := c.prt] && b.trees == WithColumn(was.trees, i, c.ptps)
  }

  lemma HoldsNow(b: Bridge, i: nat)
    requires b.Valid() && i < |b.ports|
    ensures Holds(b, Now(b), i, ColumnIn(Now(b), i))
  {
    var c := ColumnIn(Now(b), i);
    assert b.ports[i := c.prt] == b.ports;
    forall u | 0 <= u < |b.trees|
      ensures WithColumn(b.trees, i, c.ptps)[u] == b.trees[u]
    {
      assert b.trees[u].ptps[i := c.ptps[u]] == b.trees[u].ptps;
    }
    assert WithColumn(b.trees, i, c.ptps) == b.trees;
  }

  /** What can be read of a column. */
  lemma ReadColumn(b: Bridge, was: Snapshot, i: nat, c: PI.Column)
    requires Holds(b, was, i, c)
    ensures b.Valid() && |b.trees| == |c.ptps| && i < |b.ports| && b.ports[i] == c.prt
    ensures forall u :: 0 <= u < |b.trees| ==> b.trees[u].ptps[i] == c.ptps[u]
  {
  }

  method PutEntry(b: Bridge, u: nat, i: nat, q: Ptp, ghost was: Snapshot, ghost c: PI.Column)
    requires Holds(b, was, i, c) && u < |c.ptps|
    modifies b`trees
    ensures Holds(b, was, i, PI.Put(c, u, q))
  {
    ReadColumn(b, was, i, c);
    ghost var before := b.trees;
    b.trees := b.trees[u := b.trees[u].(ptps := b.trees[u].ptps[i := q])];
    ghost var after := WithColumn(was.trees, i, c.ptps[u := q]);
    forall j | 0 <= j < |b.trees|
      ensures b.trees[j] == after[j]
    {
      assert before[j].ptps == was.trees[j].ptps[i := c.ptps[j]];
      assert was.trees[j].ptps[i := c.ptps[j]][i := q] == was.trees[j].ptps[i := q];
    }
  }

  method PutPort(b: Bridge, i: nat, prt: Port, ghost was: Snapshot, ghost c: PI.Column)
    requires Holds(b, was, i, c)
    modifies b`ports
    ensures Holds(b, was, i, c.(prt := prt))
  {
    b.ports := b.ports[i := prt];
  }

  /** The entries of the trees after `k`, up to but not including `u`, changed by `f`. */
  ghost function Spread(c: PI.Column, k: int, u: nat, f: Ptp -> Ptp): (r: PI.Column)
    ensures |r.ptps| == |c.ptps|
  {
    c.(ptps := seq(|c.ptps|, j requires 0 <= j < |c.ptps| => if k < j < u then f(c.ptps[j]) else c.ptps[j]))
  }

  /** `list_for_each_entry_continue` over the further trees of the port; `k` is -1 for all of them. */
  method ForFurtherTrees(b: Bridge, k: int, i: nat, f: Ptp -> Ptp, ghost was: Snapshot, ghost c: PI.Column)
    requires Holds(b, was, i, c) && -1 <= k < |c.ptps|
    modifies b`trees
    ensures Holds(b, was, i, Spread(c, k, |c.ptps|, f))
  {
    assert Spread(c, k, k + 1, f).ptps == c.ptps;
    ReadColumn(b, was, i, c);
    for u := k + 1 to |b.trees|
      invariant Holds(b, was, i, Spread(c, k, u, f))
    {
      ghost var d := Spread(c, k, u, f);
      ReadColumn(b, was, i, d);
      PutEntry(b, u, i, f(b.trees[u].ptps[i]), was, d);
      assert PI.Put(d, u, f(c.ptps[u])).ptps == Spread(c, k, u + 1, f).ptps;
    }
  }

  // ---- Rows ----

  /** The bridge is as in `was`, except for the row of tree `t` and port `i`. */
  ghost predicate HoldsRow(b: Bridge, was: Snapshot, t: nat, i: nat, row: RT.Row)
    reads b
  {
    && Sound(was) && t < |was.trees| && i < |was.ports| && |row.ptps| == |was.ports|
    && b.ports == was.ports[i := row.prt] && b.trees == was.trees[t := was.trees[t].(ptps := row.ptps)]
  }

  lemma HoldsRowNow(b: Bridge, t: nat, i: nat)
    requires b.Valid() && t < |b.trees| && i < |b.ports|
    ensures HoldsRow(b, Now(b), t, i, RT.Row(b.ports[i], b.trees[t].ptps))
  {
    assert b.ports[i := b.ports[i]] == b.ports && b.trees[t := b.trees[t]] == b.trees;
  }

  method PutInRow(b: Bridge, t: nat, i: nat, q: Ptp, ghost was: Snapshot, ghost row: RT.Row)
    requires HoldsRow(b, was, t, i, row)
    modifies b`trees
    ensures HoldsRow(b, was, t, i, row.(ptps := row.ptps[i := q]))
  {
    b.trees := b.trees[t := b.trees[t].(ptps := b.trees[t].ptps[i := q])];
  }

  method PutRowPort(b: Bridge, t: nat, i: nat, prt: Port, ghost was: Snapshot, ghost row: RT.Row)
    requires HoldsRow(b, was, t, i, row)
    modifies b`ports
    ensures HoldsRow(b, was, t, i, row.(prt := prt))
  {
    b.ports := b.ports[i := prt];
  }

  ghost function EachEntry(ptps: seq<Ptp>, f: Ptp -> Ptp, n: nat): (r: seq<Ptp>)
    ensures |r| == |ptps|
  {
    seq(|ptps|, j requires 0 <= j < |ptps| => if j < n then f(ptps[j]) else ptps[j])
  }

  /** `FOREACH_PTP_IN_TREE`. */
  method ForAllPorts(b: Bridge, t: nat, i: nat, f: Ptp -> Ptp, ghost was: Snapshot, ghost row: RT.Row)
    requires HoldsRow(b, was, t, i, row)
    modifies b`trees
    ensures HoldsRow(b, was, t, i, row.(ptps := EachEntry(row.ptps, f, |row.ptps|)))
  {
    assert EachEntry(row.ptps, f, 0) == row.ptps;
    for j := 0 to |b.ports|
      invariant HoldsRow(b, was, t, i, row.(ptps := EachEntry(row.ptps, f, j)))
    {
      var ptps := b.trees[t].ptps;
      b.trees := b.trees[t := b.trees[t].(ptps := ptps[j := f(ptps[j])])];
      assert EachEntry(row.ptps, f, j)[j := f(row.ptps[j])] == EachEntry(row.ptps, f, j + 1);
    }
  }
}
