/** The `add_bridges` request: a frame of integers that holds a list of bridges and one list of interfaces for each.
    A list is stored as its length followed by its elements. */
module BridgeFrame {

  const INT_SIZE := 4

  // ---- The format ----

  function Counted(s: seq<int>): (r: seq<int>)
    ensures |r| == |s| + 1
  {
    [|s|] + s
  }

  function Chunks(lists: seq<seq<int>>): seq<int> {
    if lists == [] then [] else Counted(lists[0]) + Chunks(lists[1..])
  }

  function Frame(bridges: seq<int>, lists: seq<seq<int>>): seq<int> {
    Counted(bridges) + Chunks(lists)
  }

  // ---- Reading a buffer ----

  /** The length fields of `n` lists, the first at offset `at`, are in the buffer and are not negative. */
  predicate HeadersFit(buf: seq<int>, at: nat, n: nat)
    decreases n
  {
    n == 0 || (at < |buf| && buf[at] >= 0 && HeadersFit(buf, at + buf[at] + 1, n - 1))
  }

  /** The offset behind the `n` lists. */
  function End(buf: seq<int>, at: nat, n: nat): (e: nat)
    requires HeadersFit(buf, at, n)
    ensures e >= at + n
    decreases n
  {
    if n == 0 then at else End(buf, at + buf[at] + 1, n - 1)
  }

  /** Where each of the `n` lists starts. */
  function Offsets(buf: seq<int>, at: nat, n: nat): (r: seq<nat>)
    requires HeadersFit(buf, at, n)
    ensures |r| == n
    decreases n
  {
    if n == 0 then [] else [at] + Offsets(buf, at + buf[at] + 1, n - 1)
  }

  function ListsAt(buf: seq<int>, at: nat, n: nat): (r: seq<seq<int>>)
    requires HeadersFit(buf, at, n) && End(buf, at, n) <= |buf|
    ensures |r| == n
    decreases n
  {
    if n == 0 then []
    else [buf[at + 1..at + buf[at] + 1]] + ListsAt(buf, at + buf[at] + 1, n - 1)
  }

  // ---- What the server walks through ----

  /** The same walk with length fields of either sign, which may lead backwards: every field is in the buffer. */
  predicate Walks(buf: seq<int>, at: int, n: nat)
    decreases n
  {
    n == 0 || (0 <= at < |buf| && Walks(buf, at + buf[at] + 1, n - 1))
  }

  function WalkEnd(buf: seq<int>, at: int, n: nat): int
    requires Walks(buf, at, n)
    decreases n
  {
    if n == 0 then at else WalkEnd(buf, at + buf[at] + 1, n - 1)
  }

  function WalkOffsets(buf: seq<int>, at: int, n: nat): (r: seq<nat>)
    requires Walks(buf, at, n)
    ensures |r| == n
    decreases n
  {
    if n == 0 then [] else [at] + WalkOffsets(buf, at + buf[at] + 1, n - 1)
  }

  /** The walk never leads to the place just before the buffer, the only one outside it that passes the size checks. */
  predicate ReadsInside(buf: seq<int>, at: int, n: nat)
    decreases n
  {
    n == 0 || at < -1 || at >= |buf| || (at >= 0 && ReadsInside(buf, at + buf[at] + 1, n - 1))
  }

  /** The length fields on the walk are not negative. */
  predicate CountsNatural(buf: seq<int>, at: int, n: nat)
    requires Walks(buf, at, n)
    decreases n
  {
    n == 0 || (buf[at] >= 0 && CountsNatural(buf, at + buf[at] + 1, n - 1))
  }

  lemma {:induction false} NaturalWalk(buf: seq<int>, at: nat, n: nat)
    ensures Walks(buf, at, n) && CountsNatural(buf, at, n) ==> HeadersFit(buf, at, n)
    ensures HeadersFit(buf, at, n) ==>
              && Walks(buf, at, n) && CountsNatural(buf, at, n) && WalkEnd(buf, at, n) == End(buf, at, n)
              && WalkOffsets(buf, at, n) == Offsets(buf, at, n)
    decreases n
  {
    if n > 0 && at < |buf| && buf[at] >= 0 { NaturalWalk(buf, at + buf[at] + 1, n - 1); }
  }

  /** Which requests of `lin` bytes are accepted. With no bridge, whatever follows the count is ignored, but
      something has to follow it. */
  predicate Accepted(buf: seq<int>, lin: nat)
    requires |buf| == lin / INT_SIZE
  {
    && buf != [] && buf[0] >= 0
    && if buf[0] == 0 then |buf| >= 2
       else Walks(buf, buf[0] + 1, buf[0]) && lin == INT_SIZE * WalkEnd(buf, buf[0] + 1, buf[0])
  }

  // ---- The round trip ----

  lemma {:induction false} ChunksFit(prefix: seq<int>, lists: seq<seq<int>>)
    ensures var buf := prefix + Chunks(lists);
            && HeadersFit(buf, |prefix|, |lists|) && End(buf, |prefix|, |lists|) == |buf|
            && ListsAt(buf, |prefix|, |lists|) == lists
    decreases |lists|
  {
    var buf := prefix + Chunks(lists);
    if lists != [] {
      var longer := prefix + Counted(lists[0]);
      ChunksFit(longer, lists[1..]);
      assert longer + Chunks(lists[1..]) == buf;
      FirstChunk(buf, |prefix|, lists);
    }
  }

  lemma FirstChunk(buf: seq<int>, at: nat, lists: seq<seq<int>>)
    requires lists != [] && at < |buf| && buf[at..] == Chunks(lists)
    requires var next := at + |lists[0]| + 1;
             && HeadersFit(buf, next, |lists| - 1) && End(buf, next, |lists| - 1) == |buf|
             && ListsAt(buf, next, |lists| - 1) == lists[1..]
    ensures HeadersFit(buf, at, |lists|) && End(buf, at, |lists|) == |buf| && ListsAt(buf, at, |lists|) == lists
  {
    var tail := buf[at..];
    assert tail[..|lists[0]| + 1] == Counted(lists[0]);
    assert buf[at] == tail[0] == |lists[0]|;
    assert buf[at + 1..at + |lists[0]| + 1] == tail[1..|lists[0]| + 1] == lists[0];
    assert lists == [lists[0]] + lists[1..];
  }

  /** The server accepts every frame of at least one bridge, and finds in it the lists that were put in. */
  lemma FrameRoundTrip(bridges: seq<int>, lists: seq<seq<int>>)
    requires |bridges| == |lists| > 0
    ensures var buf := Frame(bridges, lists);
            && Accepted(buf, INT_SIZE * |buf|) && buf[0] == |bridges| && buf[1..|bridges| + 1] == bridges
            && HeadersFit(buf, |bridges| + 1, |bridges|) && End(buf, |bridges| + 1, |bridges|) == |buf|
            && ListsAt(buf, |bridges| + 1, |bridges|) == lists
  {
    ChunksFit(Counted(bridges), lists);
    NaturalWalk(Frame(bridges, lists), |bridges| + 1, |bridges|);
    assert Frame(bridges, lists)[..|bridges| + 1] == Counted(bridges);
  }

  lemma {:induction false} ListsAreChunks(buf: seq<int>, at: nat, n: nat)
    requires HeadersFit(buf, at, n) && End(buf, at, n) == |buf|
    ensures buf[at..] == Chunks(ListsAt(buf, at, n))
    decreases n
  {
    if n > 0 {
      var next := at + buf[at] + 1;
      ListsAreChunks(buf, next, n - 1);
      assert Counted(buf[at + 1..next]) == buf[at..next];
      assert buf[at..] == buf[at..next] + buf[next..];
      assert ListsAt(buf, at, n)[1..] == ListsAt(buf, next, n - 1);
    }
  }

  /** An accepted request of at least one bridge is a frame, with nothing left over, if and only if no length field on
      the walk is negative. */
  lemma AcceptedIsFrameIff(buf: seq<int>, lin: nat)
    requires |buf| == lin / INT_SIZE && Accepted(buf, lin) && buf[0] > 0
    ensures lin == INT_SIZE * |buf|
    ensures (exists lists :: |lists| == buf[0] && IsFrame(buf, lists)) <==> CountsNatural(buf, buf[0] + 1, buf[0])
  {
    var n := buf[0];
    NaturalWalk(buf, n + 1, n);
    if CountsNatural(buf, n + 1, n) { WalkIsFrame(buf, n); }
    forall lists | |lists| == n && IsFrame(buf, lists)
      ensures CountsNatural(buf, n + 1, n)
    {
      ChunksFit(Counted(buf[1..n + 1]), lists);
    }
  }

  lemma WalkIsFrame(buf: seq<int>, n: nat)
    requires n < |buf| && buf[0] == n && HeadersFit(buf, n + 1, n) && End(buf, n + 1, n) == |buf|
    ensures IsFrame(buf, ListsAt(buf, n + 1, n))
  {
    ListsAreChunks(buf, n + 1, n);
    assert buf == [n] + buf[1..n + 1] + buf[n + 1..];
  }

  ghost predicate IsFrame(buf: seq<int>, lists: seq<seq<int>>) {
    buf != [] && 0 <= buf[0] < |buf| && buf == Frame(buf[1..buf[0] + 1], lists)
  }

  /** A request that is accepted and is no frame: the second list is said to start before the first. */
  lemma NegativeCountIsAccepted()
    ensures var buf := [2, 10, 1, -2];
            && Accepted(buf, 16) && ReadsInside(buf, 3, 2) && WalkOffsets(buf, 3, 2) == [3, 2]
            && !CountsNatural(buf, 3, 2)
  {
    var buf := [2, 10, 1, -2];
    assert Walks(buf, 4, 0) && Walks(buf, 2, 1) && Walks(buf, 3, 2);
    assert WalkOffsets(buf, 4, 0) == [] && WalkOffsets(buf, 2, 1) == [2];
    assert WalkEnd(buf, 4, 0) == WalkEnd(buf, 2, 1) == WalkEnd(buf, 3, 2) == 4;
  }

  /** A frame without bridges is what the client would send for an empty list; the server refuses it, and accepts
      every longer one. */
  lemma NoBridges(rest: seq<int>)
    ensures Accepted([0] + rest, INT_SIZE * (1 + |rest|)) <==> rest != []
    ensures Frame([], []) == [0]
  {
  }

  lemma {:induction false} OffsetsGiveLists(buf: seq<int>, at: nat, n: nat, i: nat)
    requires HeadersFit(buf, at, n) && End(buf, at, n) <= |buf| && i < n
    ensures var o := Offsets(buf, at, n)[i];
            o < |buf| && buf[o] >= 0 && o + buf[o] + 1 <= |buf|
            && buf[o..o + buf[o] + 1] == Counted(ListsAt(buf, at, n)[i])
    decreases n
  {
    var next := at + buf[at] + 1;
    assert End(buf, next, n - 1) == End(buf, at, n);
    assert Offsets(buf, at, n) == [at] + Offsets(buf, next, n - 1);
    assert ListsAt(buf, at, n) == [buf[at + 1..next]] + ListsAt(buf, next, n - 1);
    if i > 0 {
      OffsetsGiveLists(buf, next, n - 1, i - 1);
    }
  }

  // ---- The client ----

  /** An array whose first element counts the ones that follow. */
  predicate Wellformed(a: array<int>)
    reads a
  {
    a.Length > 0 && 0 <= a[0] < a.Length
  }

  function Content(a: array<int>): seq<int>
    requires Wellformed(a)
    reads a
  {
    a[1..a[0] + 1]
  }

  /** The arrays hold the given lists. */
  ghost predicate Hold(arrays: seq<array<int>>, lists: seq<seq<int>>)
    reads arrays
  {
    |arrays| == |lists| && forall i :: 0 <= i < |arrays| ==> Wellformed(arrays[i]) && Content(arrays[i]) == lists[i]
  }

  /** The serializer of the control tool. */
  method Serialize(brArray: array<int>, ifacesLists: seq<array<int>>, ghost lists: seq<seq<int>>)
    returns (data: array<int>)
    requires Wellformed(brArray) && |ifacesLists| == brArray[0] && Hold(ifacesLists, lists)
    ensures fresh(data) && data[..] == Frame(Content(brArray), lists)
  {
    var brcount := brArray[0];
    var size := Measure(ifacesLists, lists);
    data := new int[brcount + 1 + size];
    Copy(data, 0, brArray, brcount + 1);
    assert data[..brcount + 1] == Counted(Content(brArray));
    CopyLists(data, brcount + 1, ifacesLists, lists);
  }

  /** The size of all lists with their counts. */
  method Measure(arrays: seq<array<int>>, ghost lists: seq<seq<int>>) returns (size: nat)
    requires Hold(arrays, lists)
    ensures size == |Chunks(lists)|
  {
    size := 0;
    for i := 0 to |arrays|
      invariant size == |Chunks(lists[..i])|
    {
      ChunksGrow(lists, i);
      assert |Content(arrays[i])| == |lists[i]|;
      size := size + arrays[i][0] + 1;
    }
    assert lists[..|lists|] == lists;
  }

  /** Copies the lists one behind the other; `start` is where the first one goes. */
  method CopyLists(data: array<int>, start: nat, arrays: seq<array<int>>, ghost lists: seq<seq<int>>)
    requires Hold(arrays, lists) && (forall i :: 0 <= i < |arrays| ==> arrays[i] != data)
    requires data.Length == start + |Chunks(lists)|
    modifies data
    ensures data[..] == old(data[..start]) + Chunks(lists)
  {
    ghost var head := data[..start];
    var ptr := start;
    for i := 0 to |arrays|
      invariant Hold(arrays, lists)
      invariant ptr == start + |Chunks(lists[..i])| <= data.Length
      invariant data[..ptr] == head + Chunks(lists[..i])
    {
      ChunksGrow(lists, i);
      assert |Content(arrays[i])| == |lists[i]|;
      CopyList(data, ptr, arrays[i]);
      ptr := ptr + arrays[i][0] + 1;
    }
    assert lists[..|lists|] == lists && data[..ptr] == data[..];
  }

  method CopyList(data: array<int>, ptr: nat, list: array<int>)
    requires Wellformed(list) && list != data && ptr + list[0] + 1 <= data.Length
    modifies data
    ensures data[..ptr + list[0] + 1] == old(data[..ptr]) + Counted(Content(list))
  {
    Copy(data, ptr, list, list[0] + 1);
    assert list[..list[0] + 1] == Counted(Content(list));
  }

  lemma ChunksGrow(lists: seq<seq<int>>, i: nat)
    requires i < |lists|
    ensures Chunks(lists[..i + 1]) == Chunks(lists[..i]) + Counted(lists[i])
    ensures |Chunks(lists[..i + 1])| <= |Chunks(lists)|
  {
    assert lists[..i + 1] == lists[..i] + [lists[i]];
    ChunksSplit(lists[..i], [lists[i]]);
    assert [lists[i]][1..] == [] && Chunks([lists[i]]) == Counted(lists[i]);
    ChunksSplit(lists[..i + 1], lists[i + 1..]);
    assert lists == lists[..i + 1] + lists[i + 1..];
  }

  lemma {:induction false} ChunksSplit(a: seq<seq<int>>, b: seq<seq<int>>)
    ensures Chunks(a + b) == Chunks(a) + Chunks(b)
  {
    if a == [] {
      assert a + b == b;
    } else {
      ChunksSplit(a[1..], b);
      assert (a + b)[1..] == a[1..] + b;
    }
  }

  method Copy(dst: array<int>, at: nat, src: array<int>, n: nat)
    requires dst != src && at + n <= dst.Length && n <= src.Length
    modifies dst
    ensures dst[..at] == old(dst[..at]) && dst[at..at + n] == src[..n]
  {
    for k := 0 to n
      invariant dst[..at] == old(dst[..at]) && dst[at..at + k] == src[..k]
    {
      dst[at + k] := src[k];
    }
  }

  // ---- The server ----

  /** The buffer holds 32-bit integers. */
  ghost predicate Integers(buf: seq<int>) {
    forall i :: 0 <= i < |buf| ==> -0x8000_0000 <= buf[i] < 0x8000_0000
  }

  /** A 32-bit count times the size of an integer, as the unsigned 64-bit number it is compared with. */
  function Bytes(n: int): nat
    requires -0x8000_0000 <= n < 0x1_0000_0000
  {
    var w := if n < 0x8000_0000 then n else n - 0x1_0000_0000;
    if w < 0 then 0x1_0000_0000_0000_0000 + INT_SIZE * w else INT_SIZE * w
  }

  /** The validation of the frame and the reconstruction of the list pointers, as offsets. */
  method HandleAddBridges(buf: array<int>, lin: nat) returns (ok: bool, lists: seq<nat>)
    requires lin < 0x8000_0000 && buf.Length == lin / INT_SIZE && Integers(buf[..])
    requires buf.Length > 0 && buf[0] > 0 ==> ReadsInside(buf[..], buf[0] + 1, buf[0])
    ensures ok <==> Accepted(buf[..], lin)
    ensures ok ==> buf[0] >= 0
    ensures ok && buf[0] > 0 ==> lists == WalkOffsets(buf[..], buf[0] + 1, buf[0])
    ensures ok && buf[0] == 0 ==> lists == []
  {
    if INT_SIZE > lin { return false, []; }
    var brcount := buf[0];
    ok := Validate(buf, lin);
    // A negative number of pointers is more than can be allocated.
    if !ok || brcount < 0 { return false, []; }
    lists := Pointers(buf, brcount);
  }

  method Pointers(buf: array<int>, brcount: nat) returns (lists: seq<nat>)
    requires Walks(buf[..], brcount + 1, brcount)
    ensures lists == WalkOffsets(buf[..], brcount + 1, brcount)
  {
    ghost var s := buf[..];
    lists := [];
    var ptr: int := brcount + 1;
    for i := 0 to brcount
      invariant buf[..] == s && Walks(s, ptr, brcount - i)
      invariant lists + WalkOffsets(s, ptr, brcount - i) == WalkOffsets(s, brcount + 1, brcount)
    {
      assert s[ptr] == buf[ptr];
      assert WalkOffsets(s, ptr, brcount - i) == [ptr] + WalkOffsets(s, ptr + s[ptr] + 1, brcount - i - 1);
      lists := lists + [ptr];
      ptr := ptr + buf[ptr] + 1;
    }
  }

  /** The size checks. */
  method Validate(buf: array<int>, lin: nat) returns (ok: bool)
    requires lin < 0x8000_0000 && buf.Length == lin / INT_SIZE && Integers(buf[..]) && buf.Length > 0
    requires buf[0] > 0 ==> ReadsInside(buf[..], buf[0] + 1, buf[0])
    ensures buf[0] >= 0 ==> (ok <==> Accepted(buf[..], lin))
  {
    ghost var s := buf[..];
    var brcount: int := buf[0];
    var count := brcount + 1;
    var ptr: int := count;
    if lin < Bytes(count + 1) { return false; }
    if brcount <= 0 { return true; }
    for i := 0 to brcount
      invariant buf[..] == s
      invariant i < brcount ==> ptr == count && 0 <= ptr < buf.Length && ReadsInside(s, ptr, brcount - i)
      invariant i < brcount ==> (Walks(s, brcount + 1, brcount) <==> Walks(s, ptr, brcount - i))
      invariant i < brcount && Walks(s, ptr, brcount - i) ==>
                WalkEnd(s, brcount + 1, brcount) == WalkEnd(s, ptr, brcount - i)
      invariant i == brcount ==> Accepted(s, lin)
    {
      assert s[ptr] == buf[ptr];
      var chunk := buf[ptr] + 1;
      count := count + chunk;
      assert Walks(s, ptr, brcount - i) <==> Walks(s, count, brcount - i - 1);
      if i < brcount - 1 {
        if lin < Bytes(count + 1) { return false; }
        ptr := ptr + chunk;
      } else {
        if lin != Bytes(count) { return false; }
      }
    }
    return true;
  }
}
