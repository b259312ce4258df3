/** Intrusive circular doubly linked lists.

    A list entry is a pair of links inside another object, so its address is that object and the name of the member.
    The links themselves are two finite maps from addresses to addresses; an address that is not in the maps is
    not in use. */
module ListHead {
  import opened Types

  /** Ports are objects numbered as they are created; a tree is named by its MSTID; a per-tree port by both. */
  datatype Addr =
    | BrPorts | BrTrees                      // heads of the lists of a bridge
    | PortBr(p: nat) | PortTrees(p: nat)     // br_list and the head `trees` of a port
    | TreeBr(t: u16) | TreePorts(t: u16)     // bridge_list and the head `ports` of a tree
    | PtpPort(t: u16, p: nat)                // port_list of a per-tree port
    | PtpTree(t: u16, p: nat)                // tree_list of a per-tree port

  datatype ListId = PortsOfBridge | TreesOfBridge | TreesOf(p: nat) | PortsOf(t: u16)

  /** The list that an address can be in. */
  function Owner(a: Addr): ListId {
    match a
    case BrPorts | PortBr(_) => PortsOfBridge
    case BrTrees | TreeBr(_) => TreesOfBridge
    case PortTrees(p) => TreesOf(p)
    case PtpPort(_, p) => TreesOf(p)
    case TreePorts(t) => PortsOf(t)
    case PtpTree(t, _) => PortsOf(t)
  }

  function Head(l: ListId): Addr {
    match l
    case PortsOfBridge => BrPorts
    case TreesOfBridge => BrTrees
    case TreesOf(p) => PortTrees(p)
    case PortsOf(t) => TreePorts(t)
  }

  datatype Links = Links(next: map<Addr, Addr>, prev: map<Addr, Addr>)

  predicate InUse(m: Links, a: Addr) {
    a in m.next || a in m.prev
  }

  /** The address is in use and its links point to the given neighbours. */
  predicate At(m: Links, before: Addr, a: Addr, after: Addr) {
    a in m.next && a in m.prev && m.next[a] == after && m.prev[a] == before
  }

  ghost predicate Distinct(r: seq<Addr>) {
    forall i, j :: 0 <= i < j < |r| ==> r[i] != r[j]
  }

  predicate LinkedAt(m: Links, r: seq<Addr>, i: nat)
    requires i < |r|
  {
    At(m, if i > 0 then r[i - 1] else r[|r| - 1], r[i], if i + 1 < |r| then r[i + 1] else r[0])
  }

  /** Following `next` from any entry goes once around the ring, and `prev` goes back. */
  ghost predicate Linked(m: Links, r: seq<Addr>) {
    forall i :: 0 <= i < |r| ==> LinkedAt(m, r, i)
  }

  function Ring(l: ListId, items: seq<Addr>): (r: seq<Addr>)
    ensures |r| == |items| + 1
  {
    [Head(l)] + items
  }

  /** List `l` is well formed and holds exactly the given entries, in this order. */
  ghost predicate ListIs(m: Links, l: ListId, items: seq<Addr>) {
    && Linked(m, Ring(l, items))
    && Distinct(Ring(l, items))
    && (forall a :: a in items ==> Owner(a) == l)
    && (forall a :: InUse(m, a) && Owner(a) == l ==> a in Ring(l, items))
  }

  predicate SameAt(m: Links, n: Links, a: Addr) {
    && (a in m.next <==> a in n.next) && (a in m.prev <==> a in n.prev)
    && (a in m.next ==> m.next[a] == n.next[a]) && (a in m.prev ==> m.prev[a] == n.prev[a])
  }

  /** Only links of list `l` differ. */
  ghost predicate OnlyIn(m: Links, n: Links, l: ListId) {
    forall a :: Owner(a) != l ==> SameAt(m, n, a)
  }

  lemma HeadOwner(l: ListId)
    ensures Owner(Head(l)) == l
  {
  }

  /** Changes to one list leave the others alone. */
  lemma OtherListKept(m: Links, n: Links, l: ListId, k: ListId, items: seq<Addr>)
    requires ListIs(m, k, items) && OnlyIn(m, n, l) && k != l
    ensures ListIs(n, k, items)
  {
    var r := Ring(k, items);
    HeadOwner(k);
    forall i | 0 <= i < |r|
      ensures LinkedAt(n, r, i)
    {
      assert LinkedAt(m, r, i) && Owner(r[i]) == k && SameAt(m, n, r[i]);
    }
    forall a | InUse(n, a) && Owner(a) == k
      ensures a in r
    {
      assert SameAt(m, n, a);
    }
  }

  // ---- The operations on links ----

  /** `__list_add`: the four assignments. */
  function Between(m: Links, x: Addr, prv: Addr, nxt: Addr): Links {
    Links(m.next[x := nxt][prv := x], m.prev[nxt := x][x := prv])
  }

  /** `__list_del` and the poisoning of the entry's links. */
  function Unlinked(m: Links, x: Addr): Links
    requires x in m.next && x in m.prev
  {
    Links(m.next[m.prev[x] := m.next[x]] - {x}, m.prev[m.next[x] := m.prev[x]] - {x})
  }

  ghost function Inserted(items: seq<Addr>, k: nat, x: Addr): seq<Addr>
    requires k <= |items|
  {
    items[..k] + [x] + items[k..]
  }

  /** Adding an unused entry behind position `k` of the ring puts it at position `k` of the list. */
  lemma AddingInserts(m: Links, l: ListId, items: seq<Addr>, k: nat, x: Addr)
    requires ListIs(m, l, items) && k <= |items| && Owner(x) == l && !InUse(m, x)
    ensures var r := Ring(l, items); r[k] in m.next
    ensures var r := Ring(l, items);
            var n := Between(m, x, r[k], m.next[r[k]]);
            ListIs(n, l, Inserted(items, k, x)) && OnlyIn(m, n, l)
  {
    var r := Ring(l, items);
    var nxt := if k + 1 < |r| then k + 1 else 0;
    assert LinkedAt(m, r, k);
    var n := Between(m, x, r[k], r[nxt]);
    var s := Ring(l, Inserted(items, k, x));
    HeadOwner(l);
    assert forall a :: a in r ==> Owner(a) == l;
    assert s == r[..k + 1] + [x] + r[k + 1..];
    forall i | 0 <= i < |r|
      ensures r[i] != x
    {
      assert LinkedAt(m, r, i);
    }
    RingInserts(m, r, k, x);
    forall a | InUse(n, a) && Owner(a) == l
      ensures a in s
    {
      assert a == x || a == r[k] || a == r[nxt] || InUse(m, a);
    }
    forall a | Owner(a) != l
      ensures SameAt(m, n, a)
    {
      assert a != x && a != r[k] && a != r[nxt];
    }
  }

  lemma RingInserts(m: Links, r: seq<Addr>, k: nat, x: Addr)
    requires k < |r| && Linked(m, r) && Distinct(r) && x !in r
    ensures var n := Between(m, x, r[k], r[if k + 1 < |r| then k + 1 else 0]);
            var s := r[..k + 1] + [x] + r[k + 1..];
            Linked(n, s) && Distinct(s) && forall a :: a in r || a == x ==> a in s
  {
    var nxt := if k + 1 < |r| then k + 1 else 0;
    var n := Between(m, x, r[k], r[nxt]);
    var s := r[..k + 1] + [x] + r[k + 1..];
    assert forall i :: 0 <= i < |s| ==> s[i] == if i <= k then r[i] else if i == k + 1 then x else r[i - 1];
    forall i | 0 <= i < |s|
      ensures LinkedAt(n, s, i)
    {
      if i <= k {
        InsertedBefore(m, r, k, x, i);
      } else if i > k + 1 {
        InsertedAfter(m, r, k, x, i - 1);
      }
    }
    assert r == r[..k + 1] + r[k + 1..];
  }

  /** The entries up to the insertion point: only the one right before the new entry gets a new successor, and the
      head gets a new predecessor when the entry comes last. */
  lemma InsertedBefore(m: Links, r: seq<Addr>, k: nat, x: Addr, i: nat)
    requires i <= k < |r| && Linked(m, r) && Distinct(r) && x !in r
    ensures LinkedAt(Between(m, x, r[k], r[if k + 1 < |r| then k + 1 else 0]), r[..k + 1] + [x] + r[k + 1..], i)
  {
    assert LinkedAt(m, r, i);
    assert r[i] == r[k] <==> i == k;
  }

  lemma InsertedAfter(m: Links, r: seq<Addr>, k: nat, x: Addr, j: nat)
    requires k < j < |r| && Linked(m, r) && Distinct(r) && x !in r
    ensures LinkedAt(Between(m, x, r[k], r[if k + 1 < |r| then k + 1 else 0]), r[..k + 1] + [x] + r[k + 1..], j + 1)
  {
    assert LinkedAt(m, r, j);
    assert r[j] == r[k + 1] <==> j == k + 1;
  }

  ghost function Cut(items: seq<Addr>, k: nat): seq<Addr>
    requires k < |items|
  {
    items[..k] + items[k + 1..]
  }

  lemma RingCuts(m: Links, r: seq<Addr>, k: nat)
    requires 0 < k < |r| && Linked(m, r) && Distinct(r)
    ensures r[k] in m.next && r[k] in m.prev
    ensures var s := r[..k] + r[k + 1..]; Linked(Unlinked(m, r[k]), s) && Distinct(s)
    ensures m.prev[r[k]] in r && m.next[r[k]] in r
  {
    var before, after := k - 1, if k + 1 < |r| then k + 1 else 0;
    assert LinkedAt(m, r, k);
    var n := Unlinked(m, r[k]);
    var s := r[..k] + r[k + 1..];
    assert forall i :: 0 <= i < |s| ==> s[i] == if i < k then r[i] else r[i + 1];
    forall i | 0 <= i < |s|
      ensures LinkedAt(n, s, i)
    {
      var j := if i < k then i else i + 1;
      assert LinkedAt(m, r, j);
    }
  }

  /** Deleting entry `k` cuts it out and leaves its links unused. */
  lemma DeletingCuts(m: Links, l: ListId, items: seq<Addr>, k: nat)
    requires ListIs(m, l, items) && k < |items|
    ensures items[k] in m.next && items[k] in m.prev
    ensures var n := Unlinked(m, items[k]); ListIs(n, l, Cut(items, k)) && OnlyIn(m, n, l) && !InUse(n, items[k])
  {
    var r, x := Ring(l, items), items[k];
    assert r[k + 1] == x;
    RingCuts(m, r, k + 1);
    var n := Unlinked(m, x);
    assert r[..k + 1] + r[k + 2..] == Ring(l, Cut(items, k));
    HeadOwner(l);
    assert forall a :: a in r ==> Owner(a) == l;
    forall a | InUse(n, a) && Owner(a) == l
      ensures a in Ring(l, Cut(items, k))
    {
      assert a != x && (InUse(m, a) || a == m.prev[x] || a == m.next[x]);
      assert a in r && r == r[..k + 1] + [x] + r[k + 2..];
    }
    forall a | Owner(a) != l
      ensures SameAt(m, n, a)
    {
      assert a != x && a != m.prev[x] && a != m.next[x];
    }
  }

  /** Where iteration stands after `k` entries. */
  lemma Walk(m: Links, l: ListId, items: seq<Addr>, k: nat)
    requires ListIs(m, l, items) && k <= |items|
    ensures var r := Ring(l, items);
            && r[k] in m.next && (m.next[r[k]] == if k < |items| then items[k] else Head(l))
            && r[k] in m.prev && (m.prev[r[k]] == if k > 0 then r[k - 1] else r[|items|])
            && (k < |items| ==> items[k] != Head(l))
  {
    var r := Ring(l, items);
    assert LinkedAt(m, r, k);
    if k < |items| { assert r[k + 1] == items[k] && r[0] == Head(l); }
  }

  /** The links of all lists of a bridge. */
  class Memory {
    var next: map<Addr, Addr>
    var prev: map<Addr, Addr>

    ghost function View(): Links
      reads this
    {
      Links(next, prev)
    }

    constructor ()
      ensures View() == Links(map[], map[])
    {
      next, prev := map[], map[];
    }

    /** `INIT_LIST_HEAD`. */
    method InitListHead(l: ListId)
      requires forall a :: Owner(a) == l ==> !InUse(View(), a)
      modifies this
      ensures ListIs(View(), l, []) && OnlyIn(old(View()), View(), l)
    {
      HeadOwner(l);
      next := next[Head(l) := Head(l)];
      prev := prev[Head(l) := Head(l)];
      assert LinkedAt(View(), [Head(l)], 0);
    }

    method ListAddBetween(x: Addr, prv: Addr, nxt: Addr)
      modifies this
      ensures View() == Between(old(View()), x, prv, nxt)
    {
      prev := prev[nxt := x];
      next := next[x := nxt];
      prev := prev[x := prv];
      next := next[prv := x];
    }

    /** `list_add`: the new entry comes right after the entry (or head) `at`. */
    method ListAdd(x: Addr, at: Addr, ghost l: ListId, ghost items: seq<Addr>, ghost k: nat)
      requires ListIs(View(), l, items) && k <= |items| && at == Ring(l, items)[k] && Owner(x) == l && !InUse(View(), x)
      modifies this
      ensures ListIs(View(), l, Inserted(items, k, x)) && OnlyIn(old(View()), View(), l)
    {
      AddingInserts(View(), l, items, k, x);
      ListAddBetween(x, at, next[at]);
    }

    /** `list_add_tail`: the new entry comes last. */
    method ListAddTail(x: Addr, l: ListId, ghost items: seq<Addr>)
      requires ListIs(View(), l, items) && Owner(x) == l && !InUse(View(), x)
      modifies this
      ensures ListIs(View(), l, items + [x]) && OnlyIn(old(View()), View(), l)
    {
      var head := Head(l);
      AddingInserts(View(), l, items, |items|, x);
      assert Inserted(items, |items|, x) == items + [x];
      Walk(View(), l, items, 0);
      Walk(View(), l, items, |items|);
      ListAddBetween(x, prev[head], head);
    }

    /** `list_del`. */
    method ListDel(x: Addr, ghost l: ListId, ghost items: seq<Addr>, ghost k: nat)
      requires ListIs(View(), l, items) && k < |items| && x == items[k]
      modifies this
      ensures ListIs(View(), l, Cut(items, k)) && OnlyIn(old(View()), View(), l) && !InUse(View(), x)
    {
      DeletingCuts(View(), l, items, k);
      Walk(View(), l, items, k + 1);
      var p, n := prev[x], next[x];
      prev := prev[n := p];
      next := next[p := n];
      next, prev := next - {x}, prev - {x};
    }

    /** A step of an iteration: from position `k` of the ring to the next entry, or back to the head. */
    method Next(at: Addr, ghost l: ListId, ghost items: seq<Addr>, ghost k: nat) returns (a: Addr)
      requires ListIs(View(), l, items) && k <= |items| && at == Ring(l, items)[k]
      ensures a == if k < |items| then items[k] else Head(l)
      ensures k < |items| ==> a != Head(l)
    {
      Walk(View(), l, items, k);
      a := next[at];
    }

    /** The object that holds an empty list's head is freed. */
    method Free(l: ListId)
      requires ListIs(View(), l, [])
      modifies this
      ensures OnlyIn(old(View()), View(), l) && forall a :: Owner(a) == l ==> !InUse(View(), a)
    {
      HeadOwner(l);
      next, prev := next - {Head(l)}, prev - {Head(l)};
      forall a | Owner(a) == l
        ensures !InUse(View(), a)
      {
        assert InUse(old(View()), a) ==> a in Ring(l, []);
      }
    }
  }
}
