/** The access ACL of the user data directory: its binary form and the edits that grant and revoke one
    user. Layout and validity as in POSIX 1003.1e draft 17, section 23, and Linux's posix_acl_xattr. */
module UserDataAcl {
  import opened Wrappers

  type U8 = n: nat | n < 0x100 witness 0
  type U16 = n: nat | n < 0x1_0000 witness 0
  type U32 = n: nat | n < 0x1_0000_0000 witness 0

  datatype Entry = Entry(tag: U16, perm: U16, id: U32)

  const USER_OBJ: U16 := 0x01
  const USER: U16 := 0x02
  const GROUP_OBJ: U16 := 0x04
  const GROUP: U16 := 0x08
  const MASK: U16 := 0x10
  const OTHER: U16 := 0x20
  const UNDEFINED: U32 := 0xFFFF_FFFF
  const RWX: U16 := 7
  const VERSION: U32 := 2
  const HEADER_SIZE := 4
  const ENTRY_SIZE := 8

  predicate Named(e: Entry) { e.tag == USER || e.tag == GROUP }

  // ------------------------------------------------------------------ the binary form, little-endian

  function Le16(n: U16): seq<U8> { [n % 0x100, n / 0x100] }

  function Le32(n: U32): seq<U8> { [n % 0x100, n / 0x100 % 0x100, n / 0x1_0000 % 0x100, n / 0x100_0000] }

  function Of16(b: seq<U8>): U16
    requires |b| == 2
  {
    (b[0] as nat) + (b[1] as nat) * 0x100
  }

  function Of32(b: seq<U8>): U32
    requires |b| == 4
  {
    (b[0] as nat) + (b[1] as nat) * 0x100 + (b[2] as nat) * 0x1_0000 + (b[3] as nat) * 0x100_0000
  }

  lemma Le16Exact(n: U16, b: seq<U8>)
    requires |b| == 2
    ensures Of16(Le16(n)) == n && Le16(Of16(b)) == b
  {
  }

  lemma Le32Exact(n: U32, b: seq<U8>)
    requires |b| == 4
    ensures Of32(Le32(n)) == n && Le32(Of32(b)) == b
  {
    Digits(b[0], b[1], b[2], b[3]);
    assert n / 0x1_0000 == n / 0x100 / 0x100 && n / 0x100_0000 == n / 0x1_0000 / 0x100;
  }

  // The base-256 digits of a 32-bit number.
  lemma Digits(a: nat, b: nat, c: nat, d: nat)
    requires a < 0x100 && b < 0x100 && c < 0x100 && d < 0x100
    ensures var m := a + b * 0x100 + c * 0x1_0000 + d * 0x100_0000;
            m % 0x100 == a && m / 0x100 % 0x100 == b && m / 0x1_0000 % 0x100 == c && m / 0x100_0000 == d
  {
    var m := a + b * 0x100 + c * 0x1_0000 + d * 0x100_0000;
    assert m / 0x100 == b + c * 0x100 + d * 0x1_0000;
    assert m / 0x1_0000 == c + d * 0x100;
  }

  function EncodeEntry(e: Entry): (b: seq<U8>)
    ensures |b| == ENTRY_SIZE
  {
    Le16(e.tag) + Le16(e.perm) + Le32(e.id)
  }

  function DecodeEntry(b: seq<U8>): Entry
    requires |b| == ENTRY_SIZE
  {
    Entry(Of16(b[0..2]), Of16(b[2..4]), Of32(b[4..8]))
  }

  lemma EntryExact(e: Entry, b: seq<U8>)
    requires |b| == ENTRY_SIZE
    ensures DecodeEntry(EncodeEntry(e)) == e && EncodeEntry(DecodeEntry(b)) == b
  {
    var c := EncodeEntry(e);
    assert c[0..2] == Le16(e.tag) && c[2..4] == Le16(e.perm) && c[4..8] == Le32(e.id);
    Le16Exact(e.tag, b[0..2]);
    Le16Exact(e.perm, b[2..4]);
    Le32Exact(e.id, b[4..8]);
    assert b == b[0..2] + b[2..4] + b[4..8];
  }

  /** Eight little-endian bytes: tag, permissions, id. */
  lemma EntryLayout(e: Entry)
    ensures var b := EncodeEntry(e);
            && b[0] == e.tag % 256 && b[1] == e.tag / 256 && b[2] == e.perm % 256 && b[3] == e.perm / 256
            && b[4] == e.id % 256 && b[5] == e.id / 256 % 256 && b[6] == e.id / 65536 % 256 && b[7] == e.id / 16777216
  {
  }

  function EncodeAll(es: seq<Entry>): (b: seq<U8>)
    ensures |b| == |es| * ENTRY_SIZE
  {
    if es == [] then [] else EncodeAll(es[..|es| - 1]) + EncodeEntry(es[|es| - 1])
  }

  function DecodeAll(b: seq<U8>, n: nat): (es: seq<Entry>)
    requires |b| == n * ENTRY_SIZE
    ensures |es| == n
  {
    if n == 0 then [] else DecodeAll(b[..(n - 1) * ENTRY_SIZE], n - 1) + [DecodeEntry(b[(n - 1) * ENTRY_SIZE..])]
  }

  lemma {:induction false} EncodeExact(es: seq<Entry>)
    ensures DecodeAll(EncodeAll(es), |es|) == es
    decreases |es|
  {
    hide EncodeEntry, DecodeEntry;
    if es != [] {
      var init, c := es[..|es| - 1], EncodeAll(es);
      assert c[..|init| * ENTRY_SIZE] == EncodeAll(init) && c[|init| * ENTRY_SIZE..] == EncodeEntry(es[|init|]);
      EncodeExact(init);
      EntryExact(es[|init|], c[|init| * ENTRY_SIZE..]);
      assert es == init + [es[|init|]];
    }
  }

  lemma {:induction false} DecodeExact(b: seq<U8>, n: nat)
    requires |b| == n * ENTRY_SIZE
    ensures EncodeAll(DecodeAll(b, n)) == b
  {
    hide EncodeEntry, DecodeEntry;
    if n > 0 {
      var k := (n - 1) * ENTRY_SIZE;
      var ds := DecodeAll(b, n);
      DecodeExact(b[..k], n - 1);
      EntryExact(ds[n - 1], b[k..]);
      assert ds[..n - 1] == DecodeAll(b[..k], n - 1);
      assert b == b[..k] + b[k..];
    }
  }

  /** Nothing at all is an empty ACL; a wrong length or version is an error. */
  function Parsed(raw: seq<U8>): Option<seq<Entry>> {
    if raw == [] then Some([])
    else if |raw| < HEADER_SIZE || (|raw| - HEADER_SIZE) % ENTRY_SIZE != 0 || Of32(raw[..HEADER_SIZE]) != VERSION then None
    else Some(DecodeAll(raw[HEADER_SIZE..], (|raw| - HEADER_SIZE) / ENTRY_SIZE))
  }

  method ParseACL(raw: seq<U8>) returns (r: Option<seq<Entry>>)
    ensures r == Parsed(raw)
  {
    if |raw| == 0 { return Some([]); }
    if |raw| < HEADER_SIZE || (|raw| - HEADER_SIZE) % ENTRY_SIZE != 0 { return None; }
    if Of32(raw[..HEADER_SIZE]) != VERSION { return None; }
    var n := (|raw| - HEADER_SIZE) / ENTRY_SIZE;
    var body := raw[HEADER_SIZE..];
    var out, i := [], 0;
    while i < n
      invariant 0 <= i <= n && out == DecodeAll(body[..i * ENTRY_SIZE], i)
    {
      var b := raw[HEADER_SIZE + i * ENTRY_SIZE..HEADER_SIZE + (i + 1) * ENTRY_SIZE];
      ghost var more := body[..(i + 1) * ENTRY_SIZE];
      assert more[..i * ENTRY_SIZE] == body[..i * ENTRY_SIZE] && more[i * ENTRY_SIZE..] == b;
      out := out + [DecodeEntry(b)];
      i := i + 1;
    }
    assert body[..n * ENTRY_SIZE] == body;
    return Some(out);
  }

  // ------------------------------------------------------------------ the order on disk

  predicate KeyBefore(a: Entry, b: Entry) { a.tag < b.tag || (a.tag == b.tag && a.id < b.id) }

  predicate SameKey(a: Entry, b: Entry) { a.tag == b.tag && a.id == b.id }

  function Insert(e: Entry, es: seq<Entry>): seq<Entry> {
    if es == [] || KeyBefore(e, es[|es| - 1]) == false then es + [e]
    else Insert(e, es[..|es| - 1]) + [es[|es| - 1]]
  }

  /** A stable sort by (tag, id): equal keys stay in their order. */
  function Sort(es: seq<Entry>): seq<Entry> {
    if es == [] then [] else Insert(es[|es| - 1], Sort(es[..|es| - 1]))
  }

  predicate Ordered(es: seq<Entry>) { forall i, j :: 0 <= i < j < |es| ==> !KeyBefore(es[j], es[i]) }

  lemma {:induction false} InsertIs(e: Entry, es: seq<Entry>)
    requires Ordered(es)
    ensures Ordered(Insert(e, es)) && multiset(Insert(e, es)) == multiset(es) + multiset{e}
    ensures |Insert(e, es)| == |es| + 1
    decreases |es|
  {
    if es != [] && KeyBefore(e, es[|es| - 1]) {
      var init, last := es[..|es| - 1], es[|es| - 1];
      InsertIs(e, init);
      assert es == init + [last];
      var ins := Insert(e, init);
      forall i | 0 <= i < |ins| ensures !KeyBefore(last, ins[i]) {
        assert ins[i] in multiset(ins);
        if ins[i] != e { assert ins[i] in multiset(init); }
      }
    }
  }

  lemma {:induction false} SortIs(es: seq<Entry>)
    ensures Ordered(Sort(es)) && multiset(Sort(es)) == multiset(es) && |Sort(es)| == |es|
    decreases |es|
  {
    if es != [] {
      SortIs(es[..|es| - 1]);
      InsertIs(es[|es| - 1], Sort(es[..|es| - 1]));
      assert es == es[..|es| - 1] + [es[|es| - 1]];
    }
  }

  /** On disk the entries stand by tag, and within a tag by id. */
  lemma SortedByTag(es: seq<Entry>)
    ensures forall i, j :: 0 <= i < j < |Sort(es)| ==>
              Sort(es)[i].tag < Sort(es)[j].tag || (Sort(es)[i].tag == Sort(es)[j].tag && Sort(es)[i].id <= Sort(es)[j].id)
  {
    SortIs(es);
  }

  function Marshal(es: seq<Entry>): seq<U8> { Le32(VERSION) + EncodeAll(Sort(es)) }

  lemma HeaderIs()
    ensures Le32(VERSION) == [2, 0, 0, 0]
  {
  }

  /** The version 2, then eight bytes an entry, in the order of SortedByTag. */
  lemma MarshalLayout(es: seq<Entry>, k: nat)
    ensures |Marshal(es)| == 4 + 8 * |es| && Marshal(es)[..4] == [2, 0, 0, 0]
    ensures k < |es| ==> |Sort(es)| == |es| && Marshal(es)[4 + 8 * k..12 + 8 * k] == EncodeEntry(Sort(es)[k])
  {
    hide Le32, EncodeAll, EncodeEntry, Sort;
    HeaderIs();
    SortIs(es);
    var body := EncodeAll(Sort(es));
    assert Marshal(es) == [2, 0, 0, 0] + body;
    if k < |es| {
      EncodedAt(Sort(es), k);
      assert ([2, 0, 0, 0] + body)[4 + 8 * k..12 + 8 * k] == body[8 * k..8 + 8 * k];
    }
  }

  lemma {:induction false} EncodedAt(es: seq<Entry>, k: nat)
    requires k < |es|
    ensures EncodeAll(es)[8 * k..8 + 8 * k] == EncodeEntry(es[k])
  {
    hide EncodeEntry;
    var init := es[..|es| - 1];
    if k < |init| {
      EncodedAt(init, k);
      assert EncodeAll(es)[8 * k..8 + 8 * k] == EncodeAll(init)[8 * k..8 + 8 * k];
    }
  }

  /** Reading back what was written gives the entries in their order on disk. */
  lemma ParseMarshal(es: seq<Entry>)
    ensures Parsed(Marshal(es)) == Some(Sort(es))
  {
    hide Sort, EncodeAll, DecodeAll, Le32, Of32;
    EncodeExact(Sort(es));
    Le32Exact(VERSION, [0, 0, 0, 0]);
    LeSize(VERSION);
    ReadsBack(Le32(VERSION), EncodeAll(Sort(es)), |Sort(es)|);
  }

  lemma LeSize(n: U32)
    ensures |Le32(n)| == HEADER_SIZE
  {
  }

  lemma ReadsBack(head: seq<U8>, body: seq<U8>, n: nat)
    requires |head| == HEADER_SIZE && Of32(head) == VERSION && |body| == n * ENTRY_SIZE
    ensures Parsed(head + body) == Some(DecodeAll(body, n))
  {
    hide DecodeAll, Of32;
    var raw := head + body;
    assert raw[..HEADER_SIZE] == head && raw[HEADER_SIZE..] == body;
  }

  /** And writing back what was read gives the same bytes, when they were in order. */
  lemma MarshalParse(raw: seq<U8>)
    requires raw != [] && Parsed(raw).Some? && Ordered(Parsed(raw).value)
    ensures Marshal(Parsed(raw).value) == raw
  {
    var es := Parsed(raw).value;
    DecodeExact(raw[HEADER_SIZE..], (|raw| - HEADER_SIZE) / ENTRY_SIZE);
    Le32Exact(VERSION, raw[..HEADER_SIZE]);
    SortedStays(es);
    assert raw == raw[..HEADER_SIZE] + raw[HEADER_SIZE..];
  }

  lemma {:induction false} SortedStays(es: seq<Entry>)
    requires Ordered(es)
    ensures Sort(es) == es
    decreases |es|
  {
    if es != [] {
      var init, last := es[..|es| - 1], es[|es| - 1];
      SortedStays(init);
      assert es == init + [last];
      if init != [] { assert !KeyBefore(last, es[|init| - 1]); }
    }
  }

  predicate KeysApart(es: seq<Entry>) { forall i, j :: 0 <= i < j < |es| ==> !SameKey(es[i], es[j]) }

  /** With distinct keys the order on disk depends on the entries alone. */
  lemma {:induction false} OrderIsCanonical(a: seq<Entry>, b: seq<Entry>)
    requires multiset(a) == multiset(b) && Ordered(a) && Ordered(b) && KeysApart(a)
    ensures a == b
    decreases |a|
  {
    assert |multiset(a)| == |a| && |multiset(b)| == |b|;
    if a != [] {
      FirstAgrees(a, b);
      assert a == [a[0]] + a[1..] && b == [b[0]] + b[1..];
      assert multiset(a[1..]) == multiset(a) - multiset{a[0]} && multiset(b[1..]) == multiset(b) - multiset{b[0]};
      OrderIsCanonical(a[1..], b[1..]);
    }
  }

  lemma FirstAgrees(a: seq<Entry>, b: seq<Entry>)
    requires multiset(a) == multiset(b) && Ordered(a) && Ordered(b) && KeysApart(a) && a != [] && b != []
    ensures a[0] == b[0]
  {
    assert a[0] in multiset(b) && b[0] in multiset(a);
    var i :| 0 <= i < |b| && b[i] == a[0];
    var j :| 0 <= j < |a| && a[j] == b[0];
    assert i > 0 ==> !KeyBefore(b[i], b[0]);
    assert j > 0 ==> !KeyBefore(a[j], a[0]);
  }

  // ------------------------------------------------------------------ the editor

  function Kept(es: seq<Entry>, uid: U32): seq<Entry> {
    if es == [] then [] else
      var last := es[|es| - 1];
      Kept(es[..|es| - 1], uid) + if (last.tag == USER && last.id == uid) || last.tag == MASK then [] else [last]
  }

  predicate HasNamed(es: seq<Entry>) { exists i :: 0 <= i < |es| && Named(es[i]) }

  function Masked(es: seq<Entry>): seq<Entry> { if HasNamed(es) then es + [Entry(MASK, RWX, UNDEFINED)] else es }

  /** Grant or revoke one user: take its entry and the mask out, add it back if allowed, and mask again
      if any named entry is left. */
  function Edited(es: seq<Entry>, uid: U32, allow: bool): seq<Entry> {
    Masked(Kept(es, uid) + if allow then [Entry(USER, RWX, uid)] else [])
  }

  method HasNamedEntry(es: seq<Entry>) returns (named: bool)
    ensures named == HasNamed(es)
  {
    var i := 0;
    while i < |es|
      invariant 0 <= i <= |es| && !HasNamed(es[..i])
    {
      if Named(es[i]) { return true; }
      assert es[..i + 1] == es[..i] + [es[i]];
      i := i + 1;
    }
    assert es[..i] == es;
    return false;
  }

  method WithNamedUser(es: seq<Entry>, uid: U32, allow: bool) returns (out: seq<Entry>)
    ensures out == Edited(es, uid, allow)
  {
    out := [];
    var i := 0;
    assert es[..0] == [];
    while i < |es|
      invariant 0 <= i <= |es| && out == Kept(es[..i], uid)
    {
      assert es[..i + 1][..i] == es[..i];
      if !(es[i].tag == USER && es[i].id == uid) && es[i].tag != MASK { out := out + [es[i]]; }
      i := i + 1;
    }
    assert es[..i] == es;
    if allow { out := out + [Entry(USER, RWX, uid)]; } else { assert out + [] == out; }
    var named := HasNamedEntry(out);
    if named { out := out + [Entry(MASK, RWX, UNDEFINED)]; }
  }

  function Count(es: seq<Entry>, tag: U16): nat {
    if es == [] then 0 else Count(es[..|es| - 1], tag) + if es[|es| - 1].tag == tag then 1 else 0
  }

  /** What the kernel accepts: the three base entries once each, named entries apart, and a mask exactly
      when there is a named entry. */
  predicate ValidAcl(es: seq<Entry>) {
    && (forall i :: 0 <= i < |es| ==>
          es[i].tag in {USER_OBJ, USER, GROUP_OBJ, GROUP, MASK, OTHER} && (!Named(es[i]) ==> es[i].id == UNDEFINED))
    && Count(es, USER_OBJ) == 1 && Count(es, GROUP_OBJ) == 1 && Count(es, OTHER) == 1
    && Count(es, MASK) == (if HasNamed(es) then 1 else 0)
    && KeysApart(es)
  }

  lemma {:induction false} CountAppend(a: seq<Entry>, e: Entry, tag: U16)
    ensures Count(a + [e], tag) == Count(a, tag) + if e.tag == tag then 1 else 0
  {
    assert (a + [e])[..|a|] == a;
  }

  lemma {:induction false} KeptMembers(es: seq<Entry>, uid: U32)
    ensures forall e :: e in Kept(es, uid) <==> e in es && !(e.tag == USER && e.id == uid) && e.tag != MASK
  {
    if es != [] {
      KeptMembers(es[..|es| - 1], uid);
      assert es == es[..|es| - 1] + [es[|es| - 1]];
    }
  }

  lemma {:induction false} KeptApart(es: seq<Entry>, uid: U32)
    requires KeysApart(es)
    ensures KeysApart(Kept(es, uid))
    decreases |es|
  {
    if es != [] {
      var init, last := es[..|es| - 1], es[|es| - 1];
      var k := Kept(init, uid);
      KeptApart(init, uid);
      KeptMembers(init, uid);
      forall i | 0 <= i < |k| ensures !SameKey(k[i], last) {
        assert k[i] in init;
        var j :| 0 <= j < |init| && init[j] == k[i];
        assert !SameKey(es[j], es[|init|]);
      }
      assert Kept(es, uid) == k || Kept(es, uid) == k + [last];
    }
  }

  lemma {:induction false} KeptCount(es: seq<Entry>, uid: U32, tag: U16)
    ensures tag != USER && tag != MASK ==> Count(Kept(es, uid), tag) == Count(es, tag)
    ensures Count(Kept(es, uid), MASK) == 0
  {
    if es != [] {
      var init, last := es[..|es| - 1], es[|es| - 1];
      KeptCount(init, uid, tag);
      CountAppend(Kept(init, uid), last, tag);
      CountAppend(Kept(init, uid), last, MASK);
      assert Kept(init, uid) + [] == Kept(init, uid);
    }
  }

  lemma KeptIs(es: seq<Entry>, uid: U32)
    ensures var k := Kept(es, uid);
            && (forall e :: e in k <==> e in es && !(e.tag == USER && e.id == uid) && e.tag != MASK)
            && (KeysApart(es) ==> KeysApart(k))
            && (forall tag: U16 :: tag != USER && tag != MASK ==> Count(k, tag) == Count(es, tag))
            && Count(k, MASK) == 0
  {
    KeptMembers(es, uid);
    if KeysApart(es) { KeptApart(es, uid); }
    forall tag: U16 ensures (tag != USER && tag != MASK ==> Count(Kept(es, uid), tag) == Count(es, tag)) && Count(Kept(es, uid), MASK) == 0 {
      KeptCount(es, uid, tag);
    }
  }

  /** Granting and revoking keep the ACL valid, whatever the user. */
  lemma EditKeepsValid(es: seq<Entry>, uid: U32, allow: bool)
    requires ValidAcl(es)
    ensures ValidAcl(Edited(es, uid, allow))
  {
    hide Count, Kept;
    KeptIs(es, uid);
    var k := Kept(es, uid);
    var u, m := Entry(USER, RWX, uid), Entry(MASK, RWX, UNDEFINED);
    var p := k + if allow then [u] else [];
    if allow {
      forall tag: U16 ensures Count(p, tag) == Count(k, tag) + if tag == USER then 1 else 0 { CountAppend(k, u, tag); }
    } else {
      assert p == k;
    }
    forall i | 0 <= i < |k| ensures !SameKey(k[i], u) && k[i].tag != MASK { assert k[i] in k; }
    assert forall i :: 0 <= i < |p| ==> p[i].tag != MASK && (p[i] in k || p[i] == u);
    if HasNamed(p) {
      forall tag: U16 ensures Count(p + [m], tag) == Count(p, tag) + if tag == MASK then 1 else 0 { CountAppend(p, m, tag); }
      MaskNames(p, m);
    }
  }

  lemma MaskNames(p: seq<Entry>, m: Entry)
    requires HasNamed(p) && !Named(m)
    ensures HasNamed(p + [m])
  {
    var i :| 0 <= i < |p| && Named(p[i]);
    assert Named((p + [m])[i]);
  }

  /** After the edit the user is in the ACL exactly if allowed - with full rights - and every other entry is as
      before; there is a mask exactly if somebody is named, and it withholds nothing. */
  lemma EditIsExact(es: seq<Entry>, uid: U32, allow: bool, e: Entry)
    ensures e in Edited(es, uid, allow) <==>
            if e.tag == 0x10 then e.perm == 7 && e.id == 0xFFFF_FFFF && SomeNamed(es, uid, allow)
            else if e.tag == 0x02 && e.id == uid then allow && e.perm == 7
            else e in es
  {
    KeptIs(es, uid);
    var k, u := Kept(es, uid), Entry(USER, RWX, uid);
    var p := k + if allow then [u] else [];
    assert e in p <==> e in k || (allow && e == u);
    NamedIs(es, uid, allow);
    assert e in Masked(p) <==> e in p || (HasNamed(p) && e == Entry(MASK, RWX, UNDEFINED));
  }

  // Somebody is named in the edited list.
  predicate SomeNamed(es: seq<Entry>, uid: U32, allow: bool) {
    allow || exists x :: x in es && (x.tag == 0x08 || (x.tag == 0x02 && x.id != uid))
  }

  lemma NamedIs(es: seq<Entry>, uid: U32, allow: bool)
    ensures HasNamed(Kept(es, uid) + if allow then [Entry(USER, RWX, uid)] else []) <==> SomeNamed(es, uid, allow)
  {
    KeptIs(es, uid);
    var k := Kept(es, uid);
    var p := k + if allow then [Entry(USER, RWX, uid)] else [];
    if allow { assert p[|k|] == Entry(USER, RWX, uid) && Named(p[|k|]); }
    if i :| 0 <= i < |p| && Named(p[i]) && !allow { assert p[i] in k; assert p[i] in es; }
    if x :| x in es && (x.tag == 0x08 || (x.tag == 0x02 && x.id != uid)) {
      assert x in k;
      var i :| 0 <= i < |k| && k[i] == x;
      assert Named(p[i]);
    }
  }

  lemma {:induction false} KeptAppend(a: seq<Entry>, e: Entry, uid: U32)
    ensures Kept(a + [e], uid) == Kept(a, uid) + if (e.tag == USER && e.id == uid) || e.tag == MASK then [] else [e]
  {
    assert (a + [e])[..|a|] == a;
  }

  lemma {:induction false} KeptTwice(es: seq<Entry>, u: U32, v: U32)
    ensures Kept(Kept(es, u), v) == Kept(Kept(es, v), u)
    ensures u == v ==> Kept(Kept(es, u), v) == Kept(es, u)
  {
    if es != [] {
      var init, last := es[..|es| - 1], es[|es| - 1];
      KeptTwice(init, u, v);
      KeptAppend(Kept(init, u), last, v);
      KeptAppend(Kept(init, v), last, u);
      if (last.tag == USER && last.id == u) || last.tag == MASK { assert Kept(es, u) == Kept(init, u); }
      if (last.tag == USER && last.id == v) || last.tag == MASK { assert Kept(es, v) == Kept(init, v); }
    }
  }

  // The mask does not survive into the next edit.
  lemma KeptMasked(p: seq<Entry>, v: U32)
    ensures Kept(Masked(p), v) == Kept(p, v)
  {
    if HasNamed(p) { KeptAppend(p, Entry(MASK, RWX, UNDEFINED), v); }
  }

  /** The last decision about a user is the one that counts; repeating it changes nothing. */
  lemma LastEditWins(es: seq<Entry>, uid: U32, first: bool, second: bool)
    ensures Edited(Edited(es, uid, first), uid, second) == Edited(es, uid, second)
  {
    var k := Kept(es, uid);
    var p := k + if first then [Entry(USER, RWX, uid)] else [];
    KeptMasked(p, uid);
    KeptTwice(es, uid, uid);
    if first { KeptAppend(k, Entry(USER, RWX, uid), uid); } else { assert p == k; }
    assert Kept(k, uid) + [] == k;
  }

  /** Edits of different users commute: the ACLs have the same entries, hence the same bytes on disk. */
  lemma EditsCommute(es: seq<Entry>, u: U32, v: U32, a: bool, b: bool)
    requires u != v
    ensures multiset(Edited(Edited(es, u, a), v, b)) == multiset(Edited(Edited(es, v, b), u, a))
    ensures ValidAcl(es) ==> Marshal(Edited(Edited(es, u, a), v, b)) == Marshal(Edited(Edited(es, v, b), u, a))
  {
    hide Kept, Masked, HasNamed, Edited, Marshal, Count;
    TwoEdits(es, u, v, a, b);
    TwoEdits(es, v, u, b, a);
    KeptTwice(es, u, v);
    var k := Kept(Kept(es, u), v);
    var x, y := if a then [Entry(USER, RWX, u)] else [], if b then [Entry(USER, RWX, v)] else [];
    assert multiset(k + x + y) == multiset(k + y + x);
    SameNames(k + x + y, k + y + x);
    if ValidAcl(es) {
      EditKeepsValid(es, u, a);
      EditKeepsValid(Edited(es, u, a), v, b);
      SameBytes(Edited(Edited(es, u, a), v, b), Edited(Edited(es, v, b), u, a));
    }
  }

  lemma TwoEdits(es: seq<Entry>, u: U32, v: U32, a: bool, b: bool)
    requires u != v
    ensures Edited(Edited(es, u, a), v, b) ==
            Masked(Kept(Kept(es, u), v) + (if a then [Entry(USER, RWX, u)] else []) + (if b then [Entry(USER, RWX, v)] else []))
  {
    var p := Kept(es, u) + if a then [Entry(USER, RWX, u)] else [];
    KeptMasked(p, v);
    if a { KeptAppend(Kept(es, u), Entry(USER, RWX, u), v); } else { assert p == Kept(es, u); }
    assert Kept(p, v) == Kept(Kept(es, u), v) + if a then [Entry(USER, RWX, u)] else [];
  }

  lemma SameNames(a: seq<Entry>, b: seq<Entry>)
    requires multiset(a) == multiset(b)
    ensures HasNamed(a) == HasNamed(b) && multiset(Masked(a)) == multiset(Masked(b))
  {
    if i :| 0 <= i < |a| && Named(a[i]) { assert a[i] in multiset(b); var j :| 0 <= j < |b| && b[j] == a[i]; }
    if i :| 0 <= i < |b| && Named(b[i]) { assert b[i] in multiset(a); var j :| 0 <= j < |a| && a[j] == b[i]; }
  }

  lemma SameBytes(a: seq<Entry>, b: seq<Entry>)
    requires multiset(a) == multiset(b) && KeysApart(a)
    ensures Marshal(a) == Marshal(b)
  {
    SortIs(a);
    SortIs(b);
    KeysApartSort(a);
    OrderIsCanonical(Sort(a), Sort(b));
  }

  lemma {:induction false} KeysApartSort(es: seq<Entry>)
    requires KeysApart(es)
    ensures KeysApart(Sort(es))
    decreases |es|
  {
    if es != [] {
      var init, last := es[..|es| - 1], es[|es| - 1];
      KeysApartSort(init);
      SortIs(init);
      forall i | 0 <= i < |Sort(init)| ensures !SameKey(Sort(init)[i], last) {
        assert Sort(init)[i] in multiset(init);
        var j :| 0 <= j < |init| && init[j] == Sort(init)[i];
        assert !SameKey(es[j], es[|init|]);
      }
      InsertApart(last, Sort(init));
    }
  }

  lemma {:induction false} InsertApart(e: Entry, es: seq<Entry>)
    requires KeysApart(es) && forall i :: 0 <= i < |es| ==> !SameKey(es[i], e)
    ensures KeysApart(Insert(e, es)) && forall x :: x in Insert(e, es) ==> x == e || x in es
    decreases |es|
  {
    if es != [] && KeyBefore(e, es[|es| - 1]) {
      var init, last := es[..|es| - 1], es[|es| - 1];
      InsertApart(e, init);
      forall i | 0 <= i < |Insert(e, init)| ensures !SameKey(Insert(e, init)[i], last) {
        assert Insert(e, init)[i] in Insert(e, init);
        if Insert(e, init)[i] != e { var j :| 0 <= j < |init| && init[j] == Insert(e, init)[i]; assert !SameKey(es[j], es[|init|]); }
      }
    }
  }

  // ------------------------------------------------------------------ reconciliation

  function Base(es: seq<Entry>): seq<Entry> {
    if es == [] then [] else
      var last := es[|es| - 1];
      Base(es[..|es| - 1]) + if Named(last) || last.tag == MASK then [] else [last]
  }

  // One entry per user, in the order of first mention.
  function Users(uids: seq<U32>): seq<Entry> {
    if uids == [] then [] else
      var init, last := uids[..|uids| - 1], uids[|uids| - 1];
      Users(init) + if last in init then [] else [Entry(USER, RWX, last)]
  }

  function Reconciled(es: seq<Entry>, uids: seq<U32>): seq<Entry> { Masked(Base(es) + Users(uids)) }

  lemma BaseNext(es: seq<Entry>, i: nat)
    requires i < |es|
    ensures Base(es[..i + 1]) == Base(es[..i]) + if Named(es[i]) || es[i].tag == MASK then [] else [es[i]]
  {
    assert es[..i + 1][..i] == es[..i];
  }

  lemma UsersStep(uids: seq<U32>, n: nat)
    requires n < |uids|
    ensures Users(uids[..n + 1]) == Users(uids[..n]) + if uids[n] in uids[..n] then [] else [Entry(USER, RWX, uids[n])]
  {
    assert uids[..n + 1][..n] == uids[..n];
  }

  /** Startup reconciliation: drop every named entry, rebuild from the granted users. */
  method Reconcile(es: seq<Entry>, uids: seq<U32>) returns (out: seq<Entry>)
    ensures out == Reconciled(es, uids)
  {
    out := [];
    var i := 0;
    while i < |es|
      invariant 0 <= i <= |es| && out == Base(es[..i])
    {
      BaseNext(es, i);
      if !Named(es[i]) && es[i].tag != MASK { out := out + [es[i]]; }
      i := i + 1;
    }
    assert es[..i] == es;
    var seen: set<U32> := {};
    var n := 0;
    while n < |uids|
      invariant 0 <= n <= |uids| && out == Base(es) + Users(uids[..n])
      invariant forall u: U32 :: u in seen <==> u in uids[..n]
    {
      UsersStep(uids, n);
      assert uids[..n + 1] == uids[..n] + [uids[n]];
      if uids[n] !in seen {
        seen := seen + {uids[n]};
        out := out + [Entry(USER, RWX, uids[n])];
      }
      n := n + 1;
    }
    assert uids[..n] == uids;
    var named := HasNamedEntry(out);
    if named { out := out + [Entry(MASK, RWX, UNDEFINED)]; }
  }

  /** Grant one user after the other. */
  function GrantAll(es: seq<Entry>, uids: seq<U32>): seq<Entry> {
    if uids == [] then es else Edited(GrantAll(es, uids[..|uids| - 1]), uids[|uids| - 1], true)
  }

  lemma {:induction false} BaseIs(es: seq<Entry>)
    ensures forall e :: e in Base(es) <==> e in es && !Named(e) && e.tag != MASK
    ensures forall u: U32 :: Kept(Base(es), u) == Base(es)
    ensures !HasNamed(Base(es))
  {
    if es != [] {
      var init, last := es[..|es| - 1], es[|es| - 1];
      BaseIs(init);
      assert es == init + [last];
      if !Named(last) && last.tag != MASK {
        forall u: U32 ensures Kept(Base(es), u) == Base(es) { KeptAppend(Base(init), last, u); }
      } else {
        assert Base(es) == Base(init);
      }
    }
  }

  lemma {:induction false} BaseApart(es: seq<Entry>)
    requires KeysApart(es)
    ensures KeysApart(Base(es))
    decreases |es|
  {
    if es != [] {
      var init, last := es[..|es| - 1], es[|es| - 1];
      BaseApart(init);
      BaseIs(init);
      forall i | 0 <= i < |Base(init)| ensures !SameKey(Base(init)[i], last) {
        assert Base(init)[i] in init;
        var j :| 0 <= j < |init| && init[j] == Base(init)[i];
        assert !SameKey(es[j], es[|init|]);
      }
      assert Base(es) == Base(init) || Base(es) == Base(init) + [last];
    }
  }

  lemma {:induction false} BaseCount(es: seq<Entry>, tag: U16)
    ensures Count(Base(es), tag) == if tag in {USER, GROUP, MASK} then 0 else Count(es, tag)
  {
    if es != [] {
      CountAppend(Base(es[..|es| - 1]), es[|es| - 1], tag);
      BaseCount(es[..|es| - 1], tag);
      assert Base(es[..|es| - 1]) + [] == Base(es[..|es| - 1]);
    }
  }

  /** The stripped baseline of a valid ACL is valid. */
  lemma BaseKeepsValid(es: seq<Entry>)
    requires ValidAcl(es)
    ensures ValidAcl(Base(es))
  {
    hide Count, Base;
    BaseIs(es);
    BaseApart(es);
    BaseCount(es, USER_OBJ);
    BaseCount(es, GROUP_OBJ);
    BaseCount(es, OTHER);
    BaseCount(es, MASK);
    forall i | 0 <= i < |Base(es)| ensures Base(es)[i] in es { assert Base(es)[i] in Base(es); }
  }

  // Without an ACL the mode bits are the three base entries.
  function BaseFromMode(mode: nat): seq<Entry> {
    [Entry(USER_OBJ, mode / 64 % 8, UNDEFINED), Entry(GROUP_OBJ, mode / 8 % 8, UNDEFINED), Entry(OTHER, mode % 8, UNDEFINED)]
  }

  lemma ModeBits(mode: nat)
    ensures mode / 64 % 8 * 64 + mode / 8 % 8 * 8 + mode % 8 == mode % 512
  {
    var a, b, c, k := mode / 64 % 8, mode / 8 % 8, mode % 8, mode / 512;
    assert mode / 64 == mode / 8 / 8 && k == mode / 64 / 8;
    assert mode == 8 * (mode / 8) + c && mode / 8 == 8 * (mode / 64) + b && mode / 64 == 8 * k + a;
  }

  /** Whatever the mode, that is a valid ACL to start from. */
  lemma BaseFromModeIsValid(mode: nat)
    ensures ValidAcl(BaseFromMode(mode)) && Base(BaseFromMode(mode)) == BaseFromMode(mode)
    ensures var es := BaseFromMode(mode);
            && |es| == 3 && es[0].tag == 0x01 && es[1].tag == 0x04 && es[2].tag == 0x20
            && es[0].perm * 64 + es[1].perm * 8 + es[2].perm == mode % 512
            && forall i :: 0 <= i < 3 ==> es[i].perm < 8 && es[i].id == 0xFFFF_FFFF
  {
    hide ValidAcl, Base;
    ModeBits(mode);
    BaseEntriesAreValid(mode / 64 % 8, mode / 8 % 8, mode % 8);
  }

  lemma BaseEntriesAreValid(a: U16, b: U16, c: U16)
    ensures var es := [Entry(USER_OBJ, a, UNDEFINED), Entry(GROUP_OBJ, b, UNDEFINED), Entry(OTHER, c, UNDEFINED)];
            ValidAcl(es) && Base(es) == es
  {
    var x, y, z := Entry(USER_OBJ, a, UNDEFINED), Entry(GROUP_OBJ, b, UNDEFINED), Entry(OTHER, c, UNDEFINED);
    var es := [x, y, z];
    assert es == ([] + [x]) + [y] + [z];
    assert es[..2] == [x, y] && [x, y][..1] == [x] && [x][..0] == [];
    forall tag: U16 ensures Count(es, tag) == (if tag in {USER_OBJ, GROUP_OBJ, OTHER} then 1 else 0) {
      CountAppend([], x, tag);
      CountAppend([] + [x], y, tag);
      CountAppend([] + [x] + [y], z, tag);
    }
    assert Base([x]) == [x] && Base([x, y]) == [x, y];
  }

  lemma {:induction false} UsersAre(uids: seq<U32>)
    ensures forall e :: e in Users(uids) <==> e.tag == USER && e.perm == RWX && e.id in uids
    ensures forall i, j :: 0 <= i < j < |Users(uids)| ==> Users(uids)[i].id != Users(uids)[j].id
  {
    if uids != [] {
      var init, last := uids[..|uids| - 1], uids[|uids| - 1];
      UsersAre(init);
      assert uids == init + [last];
      if last !in init {
        forall i | 0 <= i < |Users(init)| ensures Users(init)[i].id != last { assert Users(init)[i] in Users(init); }
      } else {
        assert Users(uids) == Users(init);
      }
    }
  }

  lemma {:induction false} KeptJoin(a: seq<Entry>, b: seq<Entry>, u: U32)
    ensures Kept(a + b, u) == Kept(a, u) + Kept(b, u)
  {
    if b == [] { assert a + b == a; } else {
      var init := b[..|b| - 1];
      assert a + b == (a + init) + [b[|b| - 1]];
      KeptAppend(a + init, b[|b| - 1], u);
      KeptJoin(a, init, u);
    }
  }

  // A list of users with distinct ids holds an entry at most once.
  lemma {:induction false} UserOnce(us: seq<Entry>, e: Entry)
    requires forall i, j :: 0 <= i < j < |us| ==> us[i].id != us[j].id
    ensures multiset(us)[e] == if e in us then 1 else 0
    decreases |us|
  {
    if us != [] {
      var init, last := us[..|us| - 1], us[|us| - 1];
      UserOnce(init, e);
      assert us == init + [last];
    }
  }

  // Taking a user out of a list of users removes exactly its entry.
  lemma KeptUsers(us: seq<Entry>, u: U32)
    requires forall i :: 0 <= i < |us| ==> us[i].tag == USER && us[i].perm == RWX
    requires forall i, j :: 0 <= i < j < |us| ==> us[i].id != us[j].id
    ensures multiset(Kept(us, u)) == multiset(us) - multiset{Entry(USER, RWX, u)}
  {
    hide Kept;
    forall e: Entry ensures multiset(Kept(us, u))[e] == (multiset(us) - multiset{Entry(USER, RWX, u)})[e] {
      KeptCounts(us, u, e);
      UserOnce(us, e);
    }
  }

  /** Reconciled are exactly the unnamed entries without their mask, one entry with full rights for each listed
      user, and one mask that withholds nothing if any user is listed. */
  lemma ReconcileIsExact(es: seq<Entry>, uids: seq<U32>, e: Entry)
    ensures e in Reconciled(es, uids) <==>
            if e.tag == 0x10 then e.perm == 7 && e.id == 0xFFFF_FFFF && uids != []
            else if e.tag == 0x02 then e.perm == 7 && e.id in uids
            else e.tag != 0x08 && e in es
    ensures forall i, j :: 0 <= i < j < |Users(uids)| ==> Users(uids)[i] != Users(uids)[j]
  {
    BaseIs(es);
    UsersAre(uids);
    var b, us := Base(es), Users(uids);
    assert e in b + us <==> e in b || e in us;
    if uids != [] {
      var u := Entry(USER, RWX, uids[0]);
      assert u in us;
      var i :| 0 <= i < |us| && us[i] == u;
      assert Named((b + us)[|b| + i]);
    } else {
      assert b + us == b;
    }
    assert e in Masked(b + us) <==> e in b + us || (HasNamed(b + us) && e == Entry(MASK, RWX, UNDEFINED));
  }

  /** Reconciling is granting each user on the stripped baseline: the same entries and, for a valid ACL,
      the same bytes, however often a user is listed and in whatever order. */
  lemma {:induction false} ReconcileIsGrantAll(es: seq<Entry>, uids: seq<U32>)
    ensures multiset(Reconciled(es, uids)) == multiset(GrantAll(Base(es), uids))
    ensures ValidAcl(es) ==> ValidAcl(GrantAll(Base(es), uids)) && Marshal(Reconciled(es, uids)) == Marshal(GrantAll(Base(es), uids))
  {
    BaseIs(es);
    if ValidAcl(es) { BaseKeepsValid(es); }
    if uids == [] {
      assert Base(es) + Users([]) == Base(es);
    } else {
      var init, last := uids[..|uids| - 1], uids[|uids| - 1];
      ReconcileIsGrantAll(es, init);
      OneMoreGrant(es, init, last);
      assert uids == init + [last];
      var g := GrantAll(Base(es), init);
      EditAlike(g, Reconciled(es, init), last);
      if ValidAcl(es) { EditKeepsValid(g, last, true); }
    }
    if ValidAcl(es) { SameBytes(GrantAll(Base(es), uids), Reconciled(es, uids)); }
  }

  // Editing lists with the same entries gives lists with the same entries.
  lemma EditAlike(a: seq<Entry>, b: seq<Entry>, u: U32)
    requires multiset(a) == multiset(b)
    ensures multiset(Edited(a, u, true)) == multiset(Edited(b, u, true))
  {
    KeptAlike(a, b, u);
    SameNames(Kept(a, u) + [Entry(USER, RWX, u)], Kept(b, u) + [Entry(USER, RWX, u)]);
  }

  lemma {:induction false} KeptCounts(es: seq<Entry>, u: U32, e: Entry)
    ensures multiset(Kept(es, u))[e] == if (e.tag == USER && e.id == u) || e.tag == MASK then 0 else multiset(es)[e]
  {
    if es != [] {
      KeptCounts(es[..|es| - 1], u, e);
      assert es == es[..|es| - 1] + [es[|es| - 1]];
    }
  }

  lemma KeptAlike(a: seq<Entry>, b: seq<Entry>, u: U32)
    requires multiset(a) == multiset(b)
    ensures multiset(Kept(a, u)) == multiset(Kept(b, u))
  {
    forall e: Entry ensures multiset(Kept(a, u))[e] == multiset(Kept(b, u))[e] {
      KeptCounts(a, u, e);
      KeptCounts(b, u, e);
    }
  }

  lemma UsersNext(init: seq<U32>, last: U32)
    ensures var (u, us) := (Entry(USER, RWX, last), Users(init));
            multiset(Kept(us, last) + [u]) == multiset(Users(init + [last]))
  {
    var u, us := Entry(USER, RWX, last), Users(init);
    UsersAre(init);
    forall i | 0 <= i < |us| ensures us[i].tag == USER && us[i].perm == RWX { assert us[i] in us; }
    KeptUsers(us, last);
    assert (init + [last])[..|init|] == init;
    if last in init {
      assert u in us && Users(init + [last]) == us;
    } else {
      assert u !in us && Users(init + [last]) == us + [u];
    }
  }

  lemma OneMoreGrant(es: seq<Entry>, init: seq<U32>, last: U32)
    ensures multiset(Edited(Reconciled(es, init), last, true)) == multiset(Reconciled(es, init + [last]))
  {
    hide Kept, Base, Users, HasNamed;
    var u, us := Entry(USER, RWX, last), Users(init);
    BaseIs(es);
    KeptMasked(Base(es) + us, last);
    KeptJoin(Base(es), us, last);
    UsersNext(init, last);
    var p, q := Kept(Base(es) + us, last) + [u], Base(es) + Users(init + [last]);
    assert p == Base(es) + (Kept(us, last) + [u]);
    SameNames(p, q);
  }
}
