/** The VID to FID to MSTID tables and the configuration digest that is cached from them (section 13.7 of
    IEEE 802.1Q-2005). */
module ConfigTables {
  import opened Types
  import Md5Spec
  import Md5

  const HMAC_KEY: seq<u8> := [0x13, 0xAC, 0x06, 0xA6, 0x2E, 0x47, 0xFD, 0x51,
                              0xF9, 0x5D, 0x2B, 0xA2, 0x43, 0xCD, 0x03, 0x46]

  /** `restarts` counts how often all state machines were begun anew because of a change. */
  datatype Tables = Tables(vid2fid: seq<u16>, fid2mstid: seq<u16>, mstids: seq<u16>, digest: seq<u8>, restarts: nat)

  ghost predicate LegalVids(v: seq<u16>) {
    |v| == MAX_VID + 1 && forall vid :: 1 <= vid <= MAX_VID ==> v[vid] <= MAX_FID
  }

  /** The trees in the order of their numbers, the CIST first. */
  ghost predicate LegalTrees(ids: seq<u16>) {
    && 0 < |ids| <= MAX_IMPLEMENTATION_MSTIS + 1 && ids[0] == 0
    && (forall i, j :: 0 <= i < j < |ids| ==> ids[i] < ids[j])
    && (forall i :: 0 <= i < |ids| ==> ids[i] <= MAX_MSTID)
  }

  ghost predicate LegalFids(t: seq<u16>, ids: seq<u16>) {
    |t| == MAX_FID + 1 && forall fid :: 0 <= fid < |t| ==> t[fid] in ids
  }

  ghost predicate Legal(s: Tables) {
    LegalVids(s.vid2fid) && LegalTrees(s.mstids) && LegalFids(s.fid2mstid, s.mstids)
  }

  // ---- The digest ----

  /** The MST Configuration Table: the MSTID of every VID, and 0 for the values 0 and 4095. */
  ghost function Composed(v: seq<u16>, t: seq<u16>): (r: seq<u16>)
    requires LegalVids(v) && |t| == MAX_FID + 1
    ensures |r| == MAX_VID + 2
  {
    seq(MAX_VID + 2, vid requires 0 <= vid < MAX_VID + 2 => if vid == 0 || vid == MAX_VID + 1 then 0 else t[v[vid]])
  }

  /** Each element as two octets, the more significant one first. */
  ghost function BigEndian(ws: seq<u16>): (r: seq<u8>)
    ensures |r| == 2 * |ws|
  {
    seq(2 * |ws|, k requires 0 <= k < 2 * |ws| => if k % 2 == 0 then ws[k / 2] / 0x100 else ws[k / 2] % 0x100)
  }

  ghost function DigestOf(f: Md5Spec.Mixer, v: seq<u16>, t: seq<u16>): (r: seq<u8>)
    requires LegalVids(v) && |t| == MAX_FID + 1
    ensures |r| == 16
  {
    Md5Spec.Hmac(f, HMAC_KEY, BigEndian(Composed(v, t)))
  }

  /** The cached digest is that of the tables. */
  ghost predicate Coherent(f: Md5Spec.Mixer, s: Tables) {
    Legal(s) && s.digest == DigestOf(f, s.vid2fid, s.fid2mstid)
  }

  // ---- Requests, and what they mean when the digest is always recomputed ----

  datatype Request =
    | SetVid(vid: u16, fid: u16)
    | SetAllVids(fids: seq<u16>)
    | SetFid(fid: u16, mstid: u16)
    | SetAllFids(mstids: seq<u16>)
    | CreateMsti(mstid: u16)
    | DeleteMsti(mstid: u16)

  ghost predicate WellFormed(q: Request) {
    (q.SetAllVids? ==> |q.fids| == MAX_VID + 1) && (q.SetAllFids? ==> |q.mstids| == MAX_FID + 1)
  }

  /** New tables, a new digest, and a restart exactly when some VID moved to another tree. */
  ghost function Moved(f: Md5Spec.Mixer, s: Tables, v: seq<u16>, t: seq<u16>): Tables
    requires Legal(s) && LegalVids(v) && |t| == MAX_FID + 1
  {
    s.(vid2fid := v, fid2mstid := t, digest := DigestOf(f, v, t),
       restarts := s.restarts + if Composed(v, t) == Composed(s.vid2fid, s.fid2mstid) then 0 else 1)
  }

  /** Values that are too large keep the previous entry. Entry 0 is not examined. */
  ghost function MergedVids(v: seq<u16>, fids: seq<u16>): (r: seq<u16>)
    requires |v| == |fids|
    ensures |r| == |v|
  {
    seq(|v|, i requires 0 <= i < |v| => if i > 0 && fids[i] > MAX_FID then v[i] else fids[i])
  }

  ghost function MergedFids(t: seq<u16>, mstids: seq<u16>): (r: seq<u16>)
    requires |t| == |mstids|
    ensures |r| == |t|
  {
    seq(|t|, i requires 0 <= i < |t| => if mstids[i] > MAX_MSTID then t[i] else mstids[i])
  }

  /** The number of trees with a smaller MSTID. */
  function Place(ids: seq<u16>, id: u16): (k: nat)
    ensures k <= |ids|
  {
    if ids == [] then 0 else if ids[|ids| - 1] < id then |ids| else Place(ids[..|ids| - 1], id)
  }

  ghost function Inserted(ids: seq<u16>, id: u16): seq<u16> {
    ids[..Place(ids, id)] + [id] + ids[Place(ids, id)..]
  }

  ghost function Without(ids: seq<u16>, id: u16): seq<u16> {
    if ids == [] then [] else (if ids[0] == id then [] else [ids[0]]) + Without(ids[1..], id)
  }

  ghost predicate BadMstid(id: u16) {
    id < 1 || id > MAX_MSTID
  }

  ghost predicate Refused(q: Request, s: Tables)
    requires Legal(s) && WellFormed(q)
  {
    match q
    case SetVid(vid, fid) => vid < 1 || vid > MAX_VID || fid > MAX_FID
    case SetAllVids(_) => false
    case SetFid(fid, id) => fid > MAX_FID || id !in s.mstids
    case SetAllFids(ids) => !LegalFids(MergedFids(s.fid2mstid, ids), s.mstids)
    case CreateMsti(id) => BadMstid(id) || (id !in s.mstids && |s.mstids| > MAX_IMPLEMENTATION_MSTIS)
    case DeleteMsti(id) => BadMstid(id) || id in s.fid2mstid
  }

  ghost function After(f: Md5Spec.Mixer, q: Request, s: Tables): Tables
    requires Legal(s) && WellFormed(q)
  {
    if Refused(q, s) then s
    else
      match q
      case SetVid(vid, fid) => Moved(f, s, s.vid2fid[vid := fid], s.fid2mstid)
      case SetAllVids(fids) => Moved(f, s, MergedVids(s.vid2fid, fids), s.fid2mstid)
      case SetFid(fid, id) => Moved(f, s, s.vid2fid, s.fid2mstid[fid := id])
      case SetAllFids(ids) => Moved(f, s, s.vid2fid, MergedFids(s.fid2mstid, ids))
      case CreateMsti(id) => if id in s.mstids then s else s.(mstids := Inserted(s.mstids, id))
      case DeleteMsti(id) => s.(mstids := Without(s.mstids, id))
  }

  // ---- Every request keeps the tables legal and the digest coherent ----

  /** The first `k` trees are smaller than the MSTID and the others are not. */
  ghost predicate Splits(ids: seq<u16>, id: u16, k: nat) {
    k <= |ids| && (forall i :: 0 <= i < k ==> ids[i] < id) && (forall i :: k <= i < |ids| ==> ids[i] >= id)
  }

  lemma SplitsGrow(ids: seq<u16>, id: u16, k: nat, n: nat)
    requires (forall i, j :: 0 <= i < j < |ids| ==> ids[i] < ids[j]) && n < |ids|
    requires Splits(ids[..n], id, k) && ids[n] != id
    ensures Splits(ids[..n + 1], id, if ids[n] < id then n + 1 else k)
  {
  }

  lemma {:induction false} PlaceSplits(ids: seq<u16>, id: u16)
    requires forall i, j :: 0 <= i < j < |ids| ==> ids[i] < ids[j]
    ensures Splits(ids, id, Place(ids, id))
  {
    if ids != [] && ids[|ids| - 1] >= id {
      PlaceSplits(ids[..|ids| - 1], id);
      assert forall i :: 0 <= i < |ids| - 1 ==> ids[i] == ids[..|ids| - 1][i];
    }
  }

  lemma PlaceIsUnique(ids: seq<u16>, id: u16, k: nat)
    requires (forall i, j :: 0 <= i < j < |ids| ==> ids[i] < ids[j]) && Splits(ids, id, k)
    ensures k == Place(ids, id)
  {
    PlaceSplits(ids, id);
    var p := Place(ids, id);
    var j := if k < p then k else p;
    if j < |ids| {
      assert ids[j] < id <==> j < k;
      assert ids[j] < id <==> j < p;
    }
  }

  lemma InsertionKeepsOrder(ids: seq<u16>, id: u16)
    requires LegalTrees(ids) && !BadMstid(id) && id !in ids && |ids| <= MAX_IMPLEMENTATION_MSTIS
    ensures LegalTrees(Inserted(ids, id)) && forall x :: x in Inserted(ids, id) <==> x in ids || x == id
  {
    PlaceSplits(ids, id);
    InsertionAt(ids, id, Place(ids, id));
  }

  lemma InsertionAt(ids: seq<u16>, id: u16, k: nat)
    requires LegalTrees(ids) && !BadMstid(id) && id !in ids && |ids| <= MAX_IMPLEMENTATION_MSTIS && Splits(ids, id, k)
    ensures var r := ids[..k] + [id] + ids[k..]; LegalTrees(r) && forall x :: x in r <==> x in ids || x == id
  {
    var r := ids[..k] + [id] + ids[k..];
    assert forall i :: 0 <= i < |r| ==> r[i] == if i < k then ids[i] else if i == k then id else ids[i - 1];
    assert r[0] == 0 by { assert k > 0; }
    assert ids == ids[..k] + ids[k..];
  }

  lemma {:induction false} WithoutIsFiltered(ids: seq<u16>, id: u16)
    requires forall i, j :: 0 <= i < j < |ids| ==> ids[i] < ids[j]
    ensures var r := Without(ids, id);
            && |r| <= |ids| && (forall i, j :: 0 <= i < j < |r| ==> r[i] < r[j])
            && (forall x :: x in r <==> x in ids && x != id)
            && (ids != [] && ids[0] != id ==> r != [] && r[0] == ids[0])
  {
    if ids != [] {
      WithoutIsFiltered(ids[1..], id);
      var rest := Without(ids[1..], id);
      forall x
        ensures x in Without(ids, id) <==> x in ids && x != id
      {
        assert x in ids <==> x == ids[0] || x in ids[1..];
      }
      forall j | 0 <= j < |rest|
        ensures ids[0] < rest[j]
      {
        assert rest[j] in ids[1..];
      }
    }
  }

  lemma RemovalKeepsOrder(ids: seq<u16>, id: u16)
    requires LegalTrees(ids) && id != 0
    ensures LegalTrees(Without(ids, id)) && forall x :: x in Without(ids, id) <==> x in ids && x != id
  {
    WithoutIsFiltered(ids, id);
    var r := Without(ids, id);
    forall i | 0 <= i < |r|
      ensures r[i] <= MAX_MSTID
    {
      assert r[i] in ids;
    }
  }

  lemma RequestKeepsCoherence(f: Md5Spec.Mixer, q: Request, s: Tables)
    requires Coherent(f, s) && WellFormed(q)
    ensures Coherent(f, After(f, q, s))
  {
    if !Refused(q, s) {
      match q
      case CreateMsti(id) => if id !in s.mstids { InsertionKeepsOrder(s.mstids, id); }
      case DeleteMsti(id) => RemovalKeepsOrder(s.mstids, id);
      case _ =>
    }
  }

  // ---- Histories ----

  /** The tables of a bridge as created. */
  ghost function Created(f: Md5Spec.Mixer): Tables {
    var v, t := seq(MAX_VID + 1, i => 0), seq(MAX_FID + 1, i => 0);
    Tables(v, t, [0], DigestOf(f, v, t), 0)
  }

  /** Whatever was requested since the bridge was created: the digest is that of the tables, every VID has a legal
      FID, every FID an existing tree, and there are at most 64 trees, in order. */
  ghost function AfterAll(f: Md5Spec.Mixer, qs: seq<Request>): (s: Tables)
    requires forall q :: q in qs ==> WellFormed(q)
    ensures Coherent(f, s)
  {
    if qs == [] then Created(f)
    else
      var before := AfterAll(f, qs[..|qs| - 1]);
      RequestKeepsCoherence(f, qs[|qs| - 1], before);
      After(f, qs[|qs| - 1], before)
  }

  // ---- The change tests of the setters are exact ----

  lemma VidTestIsExact(v: seq<u16>, t: seq<u16>, vid: u16, fid: u16)
    requires LegalVids(v) && |t| == MAX_FID + 1 && 1 <= vid <= MAX_VID && fid <= MAX_FID
    ensures Composed(v[vid := fid], t) == Composed(v, t) <==> t[fid] == t[v[vid]]
  {
    assert Composed(v[vid := fid], t)[vid] == t[fid] && Composed(v, t)[vid] == t[v[vid]];
  }

  lemma FidTestIsExact(v: seq<u16>, t: seq<u16>, fid: u16, id: u16)
    requires LegalVids(v) && |t| == MAX_FID + 1 && fid <= MAX_FID
    ensures Composed(v, t[fid := id]) == Composed(v, t) <==>
            t[fid] == id || forall vid :: 1 <= vid <= MAX_VID ==> v[vid] != fid
  {
    var a, b := Composed(v, t[fid := id]), Composed(v, t);
    if vid :| 1 <= vid <= MAX_VID && v[vid] == fid {
      assert a[vid] == id && b[vid] == t[fid];
    }
  }

  /** Tables agree when they agree on the VIDs that exist. */
  lemma SameOnVids(v: seq<u16>, t: seq<u16>, v1: seq<u16>, t1: seq<u16>)
    requires LegalVids(v) && |t| == MAX_FID + 1 && LegalVids(v1) && |t1| == MAX_FID + 1
    ensures Composed(v, t) == Composed(v1, t1) <==> forall vid :: 1 <= vid <= MAX_VID ==> t[v[vid]] == t1[v1[vid]]
  {
    var a, b := Composed(v, t), Composed(v1, t1);
    if a == b {
      forall vid | 1 <= vid <= MAX_VID
        ensures t[v[vid]] == t1[v1[vid]]
      {
        assert a[vid] == b[vid];
      }
    }
  }

  // ---- The routines that recompute the digest only on a detected change ----

  class Store {
    const f: Md5Spec.Mixer
    const vid2fid: array<u16>
    const fid2mstid: array<u16>
    const digest: array<u8>
    var mstids: seq<u16>
    var restarts: nat

    ghost function Snapshot(): Tables
      reads this, vid2fid, fid2mstid, digest
    {
      Tables(vid2fid[..], fid2mstid[..], mstids, digest[..], restarts)
    }

    ghost predicate Valid()
      reads this, vid2fid, fid2mstid, digest
    {
      vid2fid != fid2mstid && digest.Length == 16 && Coherent(f, Snapshot())
    }

    constructor (f: Md5Spec.Mixer)
      ensures Valid() && this.f == f && Snapshot() == Created(f) && fresh(vid2fid) && fresh(fid2mstid) && fresh(digest)
    {
      this.f := f;
      vid2fid := new u16[MAX_VID + 1](_ => 0);
      fid2mstid := new u16[MAX_FID + 1](_ => 0);
      digest := new u8[16];
      mstids := [0];
      restarts := 0;
      new;
      assert vid2fid[..] == seq(MAX_VID + 1, i => 0) && fid2mstid[..] == seq(MAX_FID + 1, i => 0);
      RecalcConfigDigest();
    }

    method RecalcConfigDigest()
      requires LegalVids(vid2fid[..]) && fid2mstid.Length == MAX_FID + 1 && digest.Length == 16
      modifies digest
      ensures digest[..] == DigestOf(f, vid2fid[..], fid2mstid[..])
    {
      ghost var want := Composed(vid2fid[..], fid2mstid[..]);
      var text := new u8[2 * (MAX_VID + 2)](_ => 0);
      for vid := 1 to MAX_VID + 1
        invariant text[0] == text[1] == 0
        invariant forall k :: 2 <= k < 2 * vid ==>
                    text[k] == if k % 2 == 0 then want[k / 2] / 0x100 else want[k / 2] % 0x100
        invariant text[2 * (MAX_VID + 1)] == text[2 * (MAX_VID + 1) + 1] == 0
      {
        var id := fid2mstid[vid2fid[vid]];
        text[2 * vid], text[2 * vid + 1] := id / 0x100, id % 0x100;
      }
      assert text[..] == BigEndian(want);
      var key := new u8[16](i requires 0 <= i < 16 => HMAC_KEY[i]);
      assert key[..16] == HMAC_KEY && text[..2 * (MAX_VID + 2)] == text[..];
      Md5.HmacMd5(f, text, 2 * (MAX_VID + 2), key, 16, digest);
    }

    /** A detected change: the digest is recomputed and the state machines begin anew. */
    method Restart()
      requires LegalVids(vid2fid[..]) && fid2mstid.Length == MAX_FID + 1 && digest.Length == 16
      modifies this`restarts, digest
      ensures digest[..] == DigestOf(f, vid2fid[..], fid2mstid[..]) && restarts == old(restarts) + 1
    {
      RecalcConfigDigest();
      restarts := restarts + 1;
    }

    method SetVid2Fid(vid: u16, fid: u16) returns (ok: bool)
      requires Valid()
      modifies this`restarts, vid2fid, digest
      ensures Valid() && ok == !Refused(SetVid(vid, fid), old(Snapshot()))
      ensures Snapshot() == After(f, SetVid(vid, fid), old(Snapshot()))
    {
      if vid < 1 || vid > MAX_VID || fid > MAX_FID { return false; }
      ghost var v, t := vid2fid[..], fid2mstid[..];
      VidTestIsExact(v, t, vid, fid);
      var changed := fid2mstid[fid] != fid2mstid[vid2fid[vid]];
      vid2fid[vid] := fid;
      assert vid2fid[..] == v[vid := fid];
      if changed { Restart(); }
      return true;
    }

    method SetAllVids2Fids(fids: array<u16>) returns (ok: bool)
      requires Valid() && fids.Length == MAX_VID + 1 && fids != vid2fid && fids != fid2mstid
      modifies this`restarts, vid2fid, digest, fids
      ensures Valid() && ok && Snapshot() == After(f, SetAllVids(old(fids[..])), old(Snapshot()))
    {
      ghost var v, t := vid2fid[..], fid2mstid[..];
      var changed := MergeVids(fids);
      assert LegalVids(fids[..]);
      SameOnVids(fids[..], t, v, t);
      Assign(vid2fid, fids);
      if changed { Restart(); }
      return true;
    }

    /** Replaces unusable values by the present ones and tells whether some VID moves to another tree. */
    method MergeVids(fids: array<u16>) returns (changed: bool)
      requires LegalVids(vid2fid[..]) && fid2mstid.Length == MAX_FID + 1 && fids.Length == MAX_VID + 1
      requires fids != vid2fid && fids != fid2mstid
      modifies fids
      ensures fids[..] == MergedVids(vid2fid[..], old(fids[..])) && LegalVids(fids[..])
      ensures changed <==> exists i :: 1 <= i <= MAX_VID && fid2mstid[..][fids[..][i]] != fid2mstid[..][vid2fid[..][i]]
    {
      ghost var v, t, merged := vid2fid[..], fid2mstid[..], MergedVids(vid2fid[..], fids[..]);
      assert LegalVids(merged);
      changed := false;
      for vid := 1 to MAX_VID + 1
        invariant forall i :: 0 <= i < vid ==> fids[i] == merged[i]
        invariant forall i :: vid <= i <= MAX_VID ==> fids[i] == old(fids[i])
        invariant changed <==> exists i :: 1 <= i < vid && t[merged[i]] != t[v[i]]
      {
        if fids[vid] > MAX_FID {
          fids[vid] := vid2fid[vid];
          continue;
        }
        if fid2mstid[fids[vid]] != fid2mstid[vid2fid[vid]] { changed := true; }
      }
      assert fids[..] == merged;
    }

    method SetFid2Mstid(fid: u16, mstid: u16) returns (ok: bool)
      requires Valid()
      modifies this`restarts, fid2mstid, digest
      ensures Valid() && ok == !Refused(SetFid(fid, mstid), old(Snapshot()))
      ensures Snapshot() == After(f, SetFid(fid, mstid), old(Snapshot()))
    {
      if fid > MAX_FID { return false; }
      var found := Find(mstids, mstid);
      if !found { return false; }
      ghost var v, t := vid2fid[..], fid2mstid[..];
      FidTestIsExact(v, t, fid, mstid);
      assert t[fid := mstid] == t || t[fid] != mstid;
      if fid2mstid[fid] != mstid {
        fid2mstid[fid] := mstid;
        assert fid2mstid[..] == t[fid := mstid];
        var used := UsesFid(fid);
        if used { Restart(); }
      }
      return true;
    }

    /** Whether there are VIDs using this FID. */
    method UsesFid(fid: u16) returns (used: bool)
      requires vid2fid.Length == MAX_VID + 1
      ensures used <==> exists vid :: 1 <= vid <= MAX_VID && vid2fid[..][vid] == fid
    {
      for vid := 1 to MAX_VID + 1
        invariant forall i :: 1 <= i < vid ==> vid2fid[..][i] != fid
      {
        if vid2fid[vid] == fid {
          assert vid2fid[..][vid] == fid;
          return true;
        }
      }
      return false;
    }

    method SetAllFids2Mstids(ids: array<u16>) returns (ok: bool)
      requires Valid() && ids.Length == MAX_FID + 1 && ids != vid2fid && ids != fid2mstid
      modifies this`restarts, fid2mstid, digest, ids
      ensures Valid() && ok == !Refused(SetAllFids(old(ids[..])), old(Snapshot()))
      ensures Snapshot() == After(f, SetAllFids(old(ids[..])), old(Snapshot()))
    {
      ghost var v, t := vid2fid[..], fid2mstid[..];
      ok := CheckFids(ids);
      if !ok { return; }
      var prev := CurrentTable();
      Assign(fid2mstid, ids);
      SameOnVids(v, ids[..], v, t);
      var changed := MovedSince(prev, v, t);
      if changed { Restart(); }
    }

    /** The tree of every VID, before a change. */
    method CurrentTable() returns (prev: array<u16>)
      requires LegalVids(vid2fid[..]) && fid2mstid.Length == MAX_FID + 1
      ensures fresh(prev) && prev.Length == MAX_VID + 1
      ensures forall i :: 1 <= i <= MAX_VID ==> prev[i] == fid2mstid[..][vid2fid[..][i]]
    {
      prev := new u16[MAX_VID + 1](_ => 0);
      for vid := 1 to MAX_VID + 1
        invariant forall i :: 1 <= i < vid ==> prev[i] == fid2mstid[..][vid2fid[..][i]]
      {
        prev[vid] := fid2mstid[vid2fid[vid]];
      }
    }

    /** Whether some VID is in another tree than before. */
    method MovedSince(prev: array<u16>, ghost v: seq<u16>, ghost t: seq<u16>) returns (changed: bool)
      requires LegalVids(v) && v == vid2fid[..] && fid2mstid.Length == |t| == MAX_FID + 1 && prev.Length == MAX_VID + 1
      requires forall i :: 1 <= i <= MAX_VID ==> prev[i] == t[v[i]]
      ensures changed <==> exists i :: 1 <= i <= MAX_VID && fid2mstid[..][v[i]] != t[v[i]]
    {
      for vid := 1 to MAX_VID + 1
        invariant forall i :: 1 <= i < vid ==> fid2mstid[..][v[i]] == t[v[i]]
      {
        if prev[vid] != fid2mstid[vid2fid[vid]] {
          assert fid2mstid[..][v[vid]] != t[v[vid]];
          return true;
        }
      }
      return false;
    }

    /** Replaces unusable values by the present ones and tells whether all values then name existing trees. */
    method CheckFids(ids: array<u16>) returns (ok: bool)
      requires fid2mstid.Length == ids.Length == MAX_FID + 1 && ids != fid2mstid
      modifies ids
      ensures ok <==> LegalFids(MergedFids(fid2mstid[..], old(ids[..])), mstids)
      ensures ok ==> ids[..] == MergedFids(fid2mstid[..], old(ids[..]))
    {
      ghost var given := ids[..];
      ghost var merged := MergedFids(fid2mstid[..], given);
      for fid := 0 to MAX_FID + 1
        invariant forall i :: 0 <= i < fid ==> ids[i] == merged[i] && merged[i] in mstids
        invariant forall i :: fid <= i < ids.Length ==> ids[i] == given[i]
      {
        if ids[fid] > MAX_MSTID { ids[fid] := fid2mstid[fid]; }
        assert ids[fid] == merged[fid];
        var found := Find(mstids, ids[fid]);
        if !found { return false; }
      }
      assert ids[..] == merged;
      return true;
    }

    method CreateMstiTree(mstid: u16) returns (ok: bool)
      requires Valid()
      modifies this`mstids
      ensures Valid() && ok == !Refused(CreateMsti(mstid), old(Snapshot()))
      ensures Snapshot() == After(f, CreateMsti(mstid), old(Snapshot()))
    {
      if mstid < 1 || mstid > MAX_MSTID { return false; }
      var found, after, count := FindPlace(mstids, mstid);
      if found { return true; }
      PlaceSplits(mstids, mstid);
      if after == 0 { return false; }
      if MAX_IMPLEMENTATION_MSTIS < count { return false; }
      InsertionKeepsOrder(mstids, mstid);
      mstids := mstids[..after] + [mstid] + mstids[after..];
      return true;
    }

    method DeleteMstiTree(mstid: u16) returns (ok: bool)
      requires Valid()
      modifies this`mstids
      ensures Valid() && ok == !Refused(DeleteMsti(mstid), old(Snapshot()))
      ensures Snapshot() == After(f, DeleteMsti(mstid), old(Snapshot()))
    {
      if mstid < 1 || mstid > MAX_MSTID { return false; }
      for fid := 0 to MAX_FID + 1
        invariant forall i :: 0 <= i < fid ==> fid2mstid[i] != mstid
      {
        if fid2mstid[fid] == mstid {
          assert fid2mstid[..][fid] == mstid;
          return false;
        }
      }
      RemovalKeepsOrder(mstids, mstid);
      var k := 0;
      while k < |mstids| && mstids[k] != mstid
        invariant k <= |mstids| && mstid !in mstids[..k]
      {
        k := k + 1;
      }
      WithoutAt(mstids, mstid, k);
      if k == |mstids| { return true; }
      mstids := mstids[..k] + mstids[k + 1..];
      return true;
    }
  }

  /** With distinct elements, filtering out one is cutting it out. */
  lemma {:induction false} WithoutAt(ids: seq<u16>, id: u16, k: nat)
    requires k <= |ids| && id !in ids[..k] && (k < |ids| ==> ids[k] == id)
    requires forall i, j :: 0 <= i < j < |ids| ==> ids[i] < ids[j]
    ensures Without(ids, id) == if k == |ids| then ids else ids[..k] + ids[k + 1..]
  {
    if ids != [] {
      if k > 0 {
        assert ids[0] in ids[..k];
        assert ids[1..][..k - 1] == ids[..k][1..];
        WithoutAt(ids[1..], id, k - 1);
      } else if |ids| > 1 {
        WithoutAt(ids[1..], id, |ids| - 1);
      }
    }
  }

  /** Walks the trees: is the MSTID there, how many trees are smaller, how many are there? */
  method FindPlace(ids: seq<u16>, id: u16) returns (found: bool, after: nat, count: nat)
    requires forall i, j :: 0 <= i < j < |ids| ==> ids[i] < ids[j]
    ensures found <==> id in ids
    ensures !found ==> after == Place(ids, id) && count == |ids|
  {
    found, after, count := false, 0, 0;
    PlaceSplits(ids, id);
    while count < |ids|
      invariant count <= |ids| && id !in ids[..count]
      invariant after == if count <= Place(ids, id) then count else Place(ids, id)
    {
      if ids[count] == id { return true, after, count; }
      if ids[count] < id { after := count + 1; }
      count := count + 1;
    }
  }

  method Find(ids: seq<u16>, id: u16) returns (found: bool)
    ensures found <==> id in ids
  {
    for i := 0 to |ids|
      invariant id !in ids[..i]
    {
      if ids[i] == id { return true; }
    }
    return false;
  }

  /** `memcpy` of a whole table. */
  method Assign(dst: array<u16>, src: array<u16>)
    requires dst != src && dst.Length == src.Length
    modifies dst
    ensures dst[..] == src[..]
  {
    for i := 0 to dst.Length
      invariant dst[..i] == src[..i]
    {
      dst[i] := src[i];
    }
    assert dst[..dst.Length] == dst[..] && src[..src.Length] == src[..];
  }
}
