/** The order on priority vectors (`betterorsamePriority`), against the lexicographic order of
    section 13.9 of IEEE 802.1Q-2005. */
module Vectors {
  import opened Types

  predicate IdLess(a: BridgeId, b: BridgeId) {
    a.priority < b.priority || (a.priority == b.priority && a.mac < b.mac)
  }

  /** Compares field after field and stops at the first difference; the port identifiers break the tie. */
  predicate BetterOrSame(v1: Vec, v2: Vec, p1: u16, p2: u16, cist: bool) {
    if cist && v1.rootId != v2.rootId then IdLess(v1.rootId, v2.rootId)
    else if cist && v1.extCost != v2.extCost then v1.extCost < v2.extCost
    else if v1.rrootId != v2.rrootId then IdLess(v1.rrootId, v2.rrootId)
    else if v1.intCost != v2.intCost then v1.intCost < v2.intCost
    else if v1.desBridge != v2.desBridge then IdLess(v1.desBridge, v2.desBridge)
    else if v1.desPort != v2.desPort then v1.desPort < v2.desPort
    else p1 <= p2
  }

  /** Comparison of the times and of the vectors; the CIST compares more fields than an MSTI. */
  predicate SamePriorityAndTimers(v1: Vec, v2: Vec, t1: Times, t2: Times, cist: bool) {
    && (cist ==> t1.(hops := 0) == t2.(hops := 0) && v1.rootId == v2.rootId && v1.extCost == v2.extCost)
    && t1.hops == t2.hops
    && v1.rrootId == v2.rrootId && v1.intCost == v2.intCost
    && v1.desBridge == v2.desBridge && v1.desPort == v2.desPort
  }

  predicate StrictlyBetter(v1: Vec, v2: Vec, cist: bool) {
    !BetterOrSame(v2, v1, 0, 0, cist)
  }

  // ---- The reference order ----

  function IdNumber(id: BridgeId): nat {
    id.priority * 0x1_0000_0000_0000 + id.mac
  }

  /** The components of a vector as one number string, most significant first. */
  function Key(v: Vec, p: u16, cist: bool): seq<nat> {
    (if cist then [IdNumber(v.rootId), v.extCost] else []) +
    [IdNumber(v.rrootId), v.intCost, IdNumber(v.desBridge), v.desPort, p]
  }

  predicate LexLeq(a: seq<nat>, b: seq<nat>) {
    a == [] || (b != [] && (a[0] < b[0] || (a[0] == b[0] && LexLeq(a[1..], b[1..]))))
  }

  lemma IdNumberOrders(a: BridgeId, b: BridgeId)
    ensures IdLess(a, b) <==> IdNumber(a) < IdNumber(b)
    ensures a == b <==> IdNumber(a) == IdNumber(b)
  {
  }

  /** Dropping an equal first component does not change the order. */
  lemma LexCons(x: nat, y: nat, a: seq<nat>, b: seq<nat>)
    ensures LexLeq([x] + a, [y] + b) <==> x < y || (x == y && LexLeq(a, b))
  {
    assert ([x] + a)[1..] == a && ([y] + b)[1..] == b;
  }

  function Tail(v: Vec, p: u16): seq<nat> {
    [IdNumber(v.rrootId)] + ([v.intCost] + ([IdNumber(v.desBridge)] + ([v.desPort] + ([p] + []))))
  }

  lemma KeyIsCons(v: Vec, p: u16, cist: bool)
    ensures Key(v, p, cist) == if cist then [IdNumber(v.rootId)] + ([v.extCost] + Tail(v, p)) else Tail(v, p)
  {
  }

  lemma TailOrders(v1: Vec, v2: Vec, p1: u16, p2: u16)
    ensures LexLeq(Tail(v1, p1), Tail(v2, p2)) <==> BetterOrSame(v1, v2, p1, p2, false)
  {
    IdNumberOrders(v1.rrootId, v2.rrootId);
    IdNumberOrders(v1.desBridge, v2.desBridge);
    LexCons(p1, p2, [], []);
    LexCons(v1.desPort, v2.desPort, [p1] + [], [p2] + []);
    LexCons(IdNumber(v1.desBridge), IdNumber(v2.desBridge), [v1.desPort] + ([p1] + []), [v2.desPort] + ([p2] + []));
    LexCons(v1.intCost, v2.intCost, [IdNumber(v1.desBridge)] + ([v1.desPort] + ([p1] + [])),
            [IdNumber(v2.desBridge)] + ([v2.desPort] + ([p2] + [])));
    LexCons(IdNumber(v1.rrootId), IdNumber(v2.rrootId),
            [v1.intCost] + ([IdNumber(v1.desBridge)] + ([v1.desPort] + ([p1] + []))),
            [v2.intCost] + ([IdNumber(v2.desBridge)] + ([v2.desPort] + ([p2] + []))));
  }

  /** `betterorsamePriority` is the lexicographic order on the component strings. */
  lemma BetterOrSameIsLexicographic(v1: Vec, v2: Vec, p1: u16, p2: u16, cist: bool)
    ensures BetterOrSame(v1, v2, p1, p2, cist) <==> LexLeq(Key(v1, p1, cist), Key(v2, p2, cist))
  {
    KeyIsCons(v1, p1, cist);
    KeyIsCons(v2, p2, cist);
    TailOrders(v1, v2, p1, p2);
    if cist {
      IdNumberOrders(v1.rootId, v2.rootId);
      LexCons(v1.extCost, v2.extCost, Tail(v1, p1), Tail(v2, p2));
      LexCons(IdNumber(v1.rootId), IdNumber(v2.rootId), [v1.extCost] + Tail(v1, p1), [v2.extCost] + Tail(v2, p2));
    }
  }

  // ---- Order laws ----

  lemma {:induction false} LexTotal(a: seq<nat>, b: seq<nat>)
    ensures LexLeq(a, b) || LexLeq(b, a)
    decreases |a|
  {
    if a != [] && b != [] {
      LexTotal(a[1..], b[1..]);
    }
  }

  lemma {:induction false} LexTransitive(a: seq<nat>, b: seq<nat>, c: seq<nat>)
    requires LexLeq(a, b) && LexLeq(b, c)
    ensures LexLeq(a, c)
    decreases |a|
  {
    if a != [] && a[0] == b[0] == c[0] {
      LexTransitive(a[1..], b[1..], c[1..]);
    }
  }

  lemma {:induction false} LexAntisymmetric(a: seq<nat>, b: seq<nat>)
    requires LexLeq(a, b) && LexLeq(b, a)
    ensures a == b
    decreases |a|
  {
    if a != [] {
      LexAntisymmetric(a[1..], b[1..]);
      assert a == [a[0]] + a[1..] && b == [b[0]] + b[1..];
    }
  }

  /** The comparison never leaves two vectors unordered. */
  lemma BetterOrSameTotal(v1: Vec, v2: Vec, p1: u16, p2: u16, cist: bool)
    ensures BetterOrSame(v1, v2, p1, p2, cist) || BetterOrSame(v2, v1, p2, p1, cist)
  {
    BetterOrSameIsLexicographic(v1, v2, p1, p2, cist);
    BetterOrSameIsLexicographic(v2, v1, p2, p1, cist);
    LexTotal(Key(v1, p1, cist), Key(v2, p2, cist));
  }

  lemma BetterOrSameTransitive(v1: Vec, v2: Vec, v3: Vec, p1: u16, p2: u16, p3: u16, cist: bool)
    requires BetterOrSame(v1, v2, p1, p2, cist) && BetterOrSame(v2, v3, p2, p3, cist)
    ensures BetterOrSame(v1, v3, p1, p3, cist)
  {
    BetterOrSameIsLexicographic(v1, v2, p1, p2, cist);
    BetterOrSameIsLexicographic(v2, v3, p2, p3, cist);
    BetterOrSameIsLexicographic(v1, v3, p1, p3, cist);
    LexTransitive(Key(v1, p1, cist), Key(v2, p2, cist), Key(v3, p3, cist));
  }

  /** Vectors that are each as good as the other agree on everything that is compared. */
  lemma BetterOrSameAntisymmetric(v1: Vec, v2: Vec, p1: u16, p2: u16, cist: bool)
    requires BetterOrSame(v1, v2, p1, p2, cist) && BetterOrSame(v2, v1, p2, p1, cist)
    ensures Key(v1, p1, cist) == Key(v2, p2, cist)
    ensures p1 == p2 && v1.(rootId := v2.rootId, extCost := v2.extCost) == v2
    ensures cist ==> v1 == v2
  {
    BetterOrSameIsLexicographic(v1, v2, p1, p2, cist);
    BetterOrSameIsLexicographic(v2, v1, p2, p1, cist);
    LexAntisymmetric(Key(v1, p1, cist), Key(v2, p2, cist));
  }
}
