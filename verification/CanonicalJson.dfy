/** The canonical JSON printer that plan hashes rest on: equal output means equal values up to member order. */
module CanonicalJson {

  /** A UTF-16 code unit, as JavaScript strings hold them. */
  type Unit = x: int | 0 <= x < 0x1_0000

  type Text = seq<Unit>

  /** The integers every JSON number type represents exactly. */
  type SafeInteger = n: int | -0x1f_ffff_ffff_ffff <= n <= 0x1f_ffff_ffff_ffff

  datatype Json = Null | Bool(b: bool) | Number(n: SafeInteger) | Str(s: Text) | Arr(items: seq<Json>) | Obj(members: seq<Member>)

  datatype Member = Member(key: Text, value: Json)

  const QUOTE: Unit := 0x22
  const BACKSLASH: Unit := 0x5C
  const COMMA: Unit := 0x2C
  const COLON: Unit := 0x3A
  const MINUS: Unit := 0x2D

  // ---------------------------------------------------------------- strings

  predicate High(u: Unit) {
    0xD800 <= u < 0xDC00
  }

  predicate Low(u: Unit) {
    0xDC00 <= u < 0xE000
  }

  /** A surrogate without its other half. */
  predicate Lone(s: Text, i: nat)
    requires i < |s|
  {
    || (High(s[i]) && !(i + 1 < |s| && Low(s[i + 1])))
    || (Low(s[i]) && !(i > 0 && High(s[i - 1])))
  }

  function HexDigit(d: int): Unit
    requires 0 <= d < 16
  {
    if d < 10 then 0x30 + d else 0x61 + d - 10
  }

  function HexValue(u: Unit): (r: int)
    ensures -1 <= r < 16
  {
    if 0x30 <= u < 0x3A then u - 0x30 else if 0x61 <= u < 0x67 then u - 0x61 + 10 else -1
  }

  /** The letter of a two-unit escape, or 0. */
  function ShortEscape(u: Unit): Unit {
    if u == QUOTE || u == BACKSLASH then u
    else if u == 0x08 then 0x62 else if u == 0x09 then 0x74 else if u == 0x0A then 0x6E
    else if u == 0x0C then 0x66 else if u == 0x0D then 0x72 else 0
  }

  function HexEscape(u: Unit): Text {
    [BACKSLASH, 0x75, HexDigit(u / 4096), HexDigit(u / 256 % 16), HexDigit(u / 16 % 16), HexDigit(u % 16)]
  }

  function Escape(u: Unit, lone: bool): (r: Text)
    ensures r != []
  {
    if ShortEscape(u) != 0 then [BACKSLASH, ShortEscape(u)]
    else if u < 0x20 || lone then HexEscape(u)
    else [u]
  }

  /** The string's units from the `i`-th on, escaped, and the closing quotation mark. */
  function Body(s: Text, i: nat): (r: Text)
    requires i <= |s|
    ensures r != []
    decreases |s| - i
  {
    if i == |s| then [QUOTE] else Escape(s[i], Lone(s, i)) + Body(s, i + 1)
  }

  /** `JSON.stringify` of a string. */
  function Quoted(s: Text): Text {
    [QUOTE] + Body(s, 0)
  }

  /** Undoes one escape: the unit and how many units it took. */
  function Unescape(t: Text): (Unit, nat)
    requires t != []
  {
    if t[0] != BACKSLASH || |t| < 2 then (t[0], 1)
    else if t[1] == 0x62 then (0x08, 2) else if t[1] == 0x74 then (0x09, 2) else if t[1] == 0x6E then (0x0A, 2)
    else if t[1] == 0x66 then (0x0C, 2) else if t[1] == 0x72 then (0x0D, 2)
    else if t[1] == 0x75 && |t| >= 6 && HexValue(t[2]) >= 0 && HexValue(t[3]) >= 0 && HexValue(t[4]) >= 0 && HexValue(t[5]) >= 0
    then (HexValue(t[2]) * 4096 + HexValue(t[3]) * 256 + HexValue(t[4]) * 16 + HexValue(t[5]), 6)
    else (t[1], 2)
  }

  /** Section 7 of RFC 8259: a raw unit is no control, quotation mark or reverse solidus; all else is an escape of it. */
  lemma EscapeFollowsRfc8259(u: Unit, lone: bool, rest: Text)
    ensures Escape(u, lone) == [u] ==> u >= 0x20 && u != QUOTE && u != BACKSLASH
    ensures Escape(u, lone) != [u] ==> Escape(u, lone)[0] == BACKSLASH
    ensures Escape(u, lone) != [] && Escape(u, lone)[0] != QUOTE && Unescape(Escape(u, lone) + rest) == (u, |Escape(u, lone)|)
  {
    HexRoundTrip(u);
  }

  lemma HexRoundTrip(u: Unit)
    ensures forall d | 0 <= d < 16 :: HexValue(HexDigit(d)) == d
    ensures u / 4096 * 4096 + u / 256 % 16 * 256 + u / 16 % 16 * 16 + u % 16 == u
  {
    assert u / 16 == u / 16 / 16 * 16 + u / 16 % 16 && u / 16 / 16 == u / 256;
    assert u / 256 == u / 256 / 16 * 16 + u / 256 % 16 && u / 256 / 16 == u / 4096;
  }

  lemma SplitAlike(x: Text, a: Text, y: Text, b: Text)
    requires x + a == y + b && |x| == |y|
    ensures x == y && a == b
  {
    assert (x + a)[..|x|] == x && (y + b)[..|y|] == y;
    assert (x + a)[|x|..] == a && (y + b)[|y|..] == b;
  }

  /** Two quoted strings that begin equal texts are the same string. */
  lemma {:induction false} BodiesReadable(s: Text, i: nat, t: Text, j: nat, r: Text, q: Text)
    requires i <= |s| && j <= |t| && Body(s, i) + r == Body(t, j) + q
    ensures s[i..] == t[j..] && r == q
    decreases |s| - i
  {
    hide Escape, Unescape, Lone;
    assert (Body(s, i) + r)[0] == Body(s, i)[0] && (Body(t, j) + q)[0] == Body(t, j)[0];
    if i < |s| { EscapeFollowsRfc8259(s[i], Lone(s, i), Body(s, i + 1) + r); }
    if j < |t| { EscapeFollowsRfc8259(t[j], Lone(t, j), Body(t, j + 1) + q); }
    if i < |s| && j < |t| {
      var x, y := Escape(s[i], Lone(s, i)), Escape(t[j], Lone(t, j));
      assert Body(s, i) + r == x + (Body(s, i + 1) + r) && Body(t, j) + q == y + (Body(t, j + 1) + q);
      SplitAlike(x, Body(s, i + 1) + r, y, Body(t, j + 1) + q);
      BodiesReadable(s, i + 1, t, j + 1, r, q);
      assert s[i..] == [s[i]] + s[i + 1..] && t[j..] == [t[j]] + t[j + 1..];
    } else if i == |s| && j == |t| {
      SplitAlike([QUOTE], r, [QUOTE], q);
    }
  }

  lemma QuotedReadable(s: Text, t: Text, r: Text, q: Text)
    requires Quoted(s) + r == Quoted(t) + q
    ensures s == t && r == q
  {
    assert (Quoted(s) + r)[1..] == Body(s, 0) + r && (Quoted(t) + q)[1..] == Body(t, 0) + q;
    BodiesReadable(s, 0, t, 0, r, q);
    assert s[0..] == s && t[0..] == t;
  }

  // ---------------------------------------------------------------- numbers

  predicate IsDigit(u: Unit) {
    0x30 <= u < 0x3A
  }

  function Digits(n: nat): (r: Text)
    ensures r != [] && forall u <- r :: IsDigit(u)
  {
    if n < 10 then [0x30 + n] else Digits(n / 10) + [0x30 + n % 10]
  }

  function Decimal(n: SafeInteger): Text {
    if n < 0 then [MINUS] + Digits(-n) else Digits(n)
  }

  function Value(t: Text): int {
    if t == [] then 0 else Value(t[..|t| - 1]) * 10 + (t[|t| - 1] as int) - 0x30
  }

  lemma {:induction false} DigitsHaveValue(n: nat)
    ensures Value(Digits(n)) == n
  {
    if n >= 10 {
      DigitsHaveValue(n / 10);
      assert Digits(n)[..|Digits(n)| - 1] == Digits(n / 10);
    } else {
      assert Digits(n)[..0] == [];
    }
  }

  /** What follows a value: nothing, or a unit no value starts with and no number goes on with. */
  predicate Ends(rest: Text) {
    rest == [] || rest[0] == COMMA || rest[0] == 0x5D || rest[0] == 0x7D
  }

  lemma LongerGoesOn(a: Text, r: Text, b: Text, q: Text)
    requires a + r == b + q
    ensures |a| < |b| ==> r != [] && r[0] in b
  {
    if |a| < |b| {
      assert (a + r)[|a|] == (b + q)[|a|] == b[|a|];
    }
  }

  lemma DigitsReadable(m: nat, n: nat, r: Text, q: Text)
    requires Digits(m) + r == Digits(n) + q && Ends(r) && Ends(q)
    ensures m == n && r == q
  {
    hide Digits;
    LongerGoesOn(Digits(m), r, Digits(n), q);
    LongerGoesOn(Digits(n), q, Digits(m), r);
    SplitAlike(Digits(m), r, Digits(n), q);
    DigitsHaveValue(m);
    DigitsHaveValue(n);
  }

  lemma DecimalReadable(m: SafeInteger, n: SafeInteger, r: Text, q: Text)
    requires Decimal(m) + r == Decimal(n) + q && Ends(r) && Ends(q)
    ensures m == n && r == q
  {
    hide Digits;
    var a, b := Decimal(m), Decimal(n);
    assert (a + r)[0] == a[0] && (b + q)[0] == b[0];
    assert m >= 0 ==> a[0] in Digits(m);
    assert n >= 0 ==> b[0] in Digits(n);
    if m < 0 && n < 0 {
      assert a + r == [MINUS] + (Digits(-m) + r) && b + q == [MINUS] + (Digits(-n) + q);
      SplitAlike([MINUS], Digits(-m) + r, [MINUS], Digits(-n) + q);
      DigitsReadable(-m, -n, r, q);
    } else if m >= 0 && n >= 0 {
      DigitsReadable(m, n, r, q);
    }
  }

  // ---------------------------------------------------------------- key order

  /** Order by UTF-16 code units, a proper prefix first. */
  predicate Less(a: Text, b: Text) {
    b != [] && (a == [] || a[0] < b[0] || (a[0] == b[0] && Less(a[1..], b[1..])))
  }

  lemma {:induction false} LessIsTotal(a: Text, b: Text)
    ensures Less(a, b) || Less(b, a) || a == b
    ensures !(Less(a, b) && Less(b, a)) && !Less(a, a)
  {
    if a != [] {
      LessIsTotal(a[1..], a[1..]);
      if b != [] {
        LessIsTotal(a[1..], b[1..]);
        assert a == [a[0]] + a[1..] && b == [b[0]] + b[1..];
      }
    }
  }

  lemma {:induction false} LessIsTransitive(a: Text, b: Text, c: Text)
    requires Less(a, b) && Less(b, c)
    ensures Less(a, c)
  {
    if a != [] && b != [] && c != [] && a[0] == b[0] == c[0] { LessIsTransitive(a[1..], b[1..], c[1..]); }
  }

  predicate Sorted(keys: seq<Text>) {
    forall i, j | 0 <= i < j < |keys| :: Less(keys[i], keys[j])
  }

  /** Inserts a key; a key that is already there is kept once, as in an object. */
  function Insert(keys: seq<Text>, k: Text): seq<Text> {
    if keys == [] || Less(k, keys[0]) then [k] + keys
    else if k == keys[0] then keys
    else [keys[0]] + Insert(keys[1..], k)
  }

  /** `Object.keys(record).sort()`. */
  function SortedKeys(members: seq<Member>): seq<Text> {
    if members == [] then [] else Insert(SortedKeys(members[1..]), members[0].key)
  }

  lemma {:induction false} InsertSorts(keys: seq<Text>, k: Text)
    requires Sorted(keys)
    ensures Sorted(Insert(keys, k)) && forall x :: x in Insert(keys, k) <==> x in keys || x == k
  {
    if keys != [] {
      LessIsTotal(k, keys[0]);
      if Less(k, keys[0]) {
        forall j | 0 < j < |keys| ensures Less(k, keys[j]) { LessIsTransitive(k, keys[0], keys[j]); }
      } else if k != keys[0] {
        InsertSorts(keys[1..], k);
        assert keys == [keys[0]] + keys[1..];
        var r := Insert(keys[1..], k);
        forall j | 0 <= j < |r| ensures Less(keys[0], r[j]) {
          assert r[j] in r;
          if r[j] != k {
            var i :| 0 <= i < |keys[1..]| && keys[1..][i] == r[j];
            assert Less(keys[0], keys[i + 1]);
          }
        }
      }
    }
  }

  predicate HasKey(members: seq<Member>, k: Text) {
    exists m <- members :: m.key == k
  }

  lemma {:induction false} SortedKeysAre(members: seq<Member>)
    ensures Sorted(SortedKeys(members)) && forall k :: k in SortedKeys(members) <==> HasKey(members, k)
  {
    if members != [] {
      SortedKeysAre(members[1..]);
      InsertSorts(SortedKeys(members[1..]), members[0].key);
      assert members == [members[0]] + members[1..];
    }
  }

  /** A sorted list is determined by what it holds. */
  lemma {:induction false} SortedIsUnique(a: seq<Text>, b: seq<Text>)
    requires Sorted(a) && Sorted(b) && forall k :: k in a <==> k in b
    ensures a == b
  {
    assert b == [] || b[0] in b;
    if a != [] {
      assert a[0] in b && (b == [] || b[0] in a);
      var i :| 0 <= i < |b| && b[i] == a[0];
      var j :| 0 <= j < |a| && a[j] == b[0];
      LessIsTotal(a[0], b[0]);
      assert a[0] == b[0];
      forall k ensures k in a[1..] <==> k in b[1..] {
        assert a == [a[0]] + a[1..] && b == [b[0]] + b[1..];
        assert k in a <==> k == a[0] || k in a[1..];
        assert k in b <==> k == b[0] || k in b[1..];
        NotInTail(a);
        NotInTail(b);
      }
      SortedIsUnique(a[1..], b[1..]);
      assert a == [a[0]] + a[1..] && b == [b[0]] + b[1..];
    }
  }

  lemma NotInTail(a: seq<Text>)
    requires Sorted(a) && a != []
    ensures a[0] !in a[1..]
  {
    forall j | 0 < j < |a| ensures a[j] != a[0] { LessIsTotal(a[0], a[j]); }
  }

  // ---------------------------------------------------------------- the printer

  function Size(v: Json): nat {
    match v
    case Arr(items) => 1 + ItemsSize(items)
    case Obj(members) => 1 + MembersSize(members)
    case _ => 0
  }

  function ItemsSize(items: seq<Json>): nat {
    if items == [] then 0 else 1 + Size(items[0]) + ItemsSize(items[1..])
  }

  function MembersSize(members: seq<Member>): nat {
    if members == [] then 0 else 1 + Size(members[0].value) + MembersSize(members[1..])
  }

  /** `record[key]`; an object literal's later member of the same name would be the one kept. */
  function Lookup(members: seq<Member>, k: Text): (r: Json)
    requires HasKey(members, k)
    ensures Size(r) < MembersSize(members)
  {
    if HasKey(members[1..], k) then Lookup(members[1..], k)
    else
      assert members == [members[0]] + members[1..];
      members[0].value
  }

  function CanonicalJson(v: Json): Text
    decreases Size(v), 1
  {
    match v
    case Null => [0x6E, 0x75, 0x6C, 0x6C]
    case Bool(b) => if b then [0x74, 0x72, 0x75, 0x65] else [0x66, 0x61, 0x6C, 0x73, 0x65]
    case Number(n) => Decimal(n)
    case Str(s) => Quoted(s)
    case Arr(items) => [0x5B] + Items(items, true)
    case Obj(members) =>
      SortedKeysAre(members);
      [0x7B] + Entries(members, SortedKeys(members), true)
  }

  /** The rest of an array and its bracket; a comma comes before every item but the first. */
  function Items(items: seq<Json>, first: bool): Text
    decreases ItemsSize(items), 0
  {
    if items == [] then [0x5D]
    else (if first then [] else [COMMA]) + CanonicalJson(items[0]) + Items(items[1..], false)
  }

  /** The entries of the given keys and the closing brace. */
  function Entries(members: seq<Member>, keys: seq<Text>, first: bool): Text
    requires forall k <- keys :: HasKey(members, k)
    decreases MembersSize(members), 0, |keys|
  {
    if keys == [] then [0x7D]
    else
      (if first then [] else [COMMA]) + Quoted(keys[0]) + [COLON] + CanonicalJson(Lookup(members, keys[0]))
      + Entries(members, keys[1..], false)
  }

  // ---------------------------------------------------------------- equality up to member order

  /** Equal, with objects compared as finite maps from names to values. */
  ghost predicate Same(a: Json, b: Json)
    decreases Size(a), 1
  {
    match (a, b)
    case (Arr(s), Arr(t)) => SameItems(s, t)
    case (Obj(m), Obj(n)) => (forall k :: HasKey(m, k) <==> HasKey(n, k)) && SameMembers(m, n)
    case _ => a == b
  }

  ghost predicate SameItems(s: seq<Json>, t: seq<Json>)
    decreases ItemsSize(s), 0
  {
    if s == [] || t == [] then s == t else Same(s[0], t[0]) && SameItems(s[1..], t[1..])
  }

  ghost predicate SameMembers(m: seq<Member>, n: seq<Member>)
    requires forall k :: HasKey(m, k) <==> HasKey(n, k)
    decreases MembersSize(m), 0
  {
    forall k | HasKey(m, k) :: Same(Lookup(m, k), Lookup(n, k))
  }

  // ---------------------------------------------------------------- equal values print alike

  lemma {:induction false} SamePrintAlike(a: Json, b: Json)
    requires Same(a, b)
    ensures CanonicalJson(a) == CanonicalJson(b)
    decreases Size(a), 1
  {
    match (a, b)
    case (Arr(s), Arr(t)) => SameItemsPrintAlike(s, t, true);
    case (Obj(m), Obj(n)) =>
      SortedKeysAre(m);
      SortedKeysAre(n);
      SortedIsUnique(SortedKeys(m), SortedKeys(n));
      SameEntriesPrintAlike(m, n, SortedKeys(m), true);
    case _ =>
  }

  lemma {:induction false} SameItemsPrintAlike(s: seq<Json>, t: seq<Json>, first: bool)
    requires SameItems(s, t)
    ensures Items(s, first) == Items(t, first)
    decreases ItemsSize(s), 0
  {
    if s != [] && t != [] {
      SamePrintAlike(s[0], t[0]);
      SameItemsPrintAlike(s[1..], t[1..], false);
    }
  }

  lemma {:induction false} SameEntriesPrintAlike(m: seq<Member>, n: seq<Member>, keys: seq<Text>, first: bool)
    requires (forall k :: HasKey(m, k) <==> HasKey(n, k)) && SameMembers(m, n) && forall k <- keys :: HasKey(m, k)
    ensures Entries(m, keys, first) == Entries(n, keys, first)
    decreases MembersSize(m), 0, |keys|
  {
    if keys != [] {
      assert HasKey(m, keys[0]);
      SamePrintAlike(Lookup(m, keys[0]), Lookup(n, keys[0]));
      SameEntriesPrintAlike(m, n, keys[1..], false);
    }
  }

  // ---------------------------------------------------------------- unique readability

  /** The first unit tells the kind of value. */
  function Kind(v: Json): nat {
    match v
    case Null => 0
    case Bool(b) => if b then 1 else 2
    case Number(_) => 3
    case Str(_) => 4
    case Arr(_) => 5
    case Obj(_) => 6
  }

  function KindOf(u: Unit): nat {
    if u == 0x6E then 0 else if u == 0x74 then 1 else if u == 0x66 then 2 else if u == QUOTE then 4
    else if u == 0x5B then 5 else if u == 0x7B then 6 else if u == MINUS || IsDigit(u) then 3 else 7
  }

  lemma FirstUnitTellsKind(v: Json)
    ensures CanonicalJson(v) != [] && KindOf(CanonicalJson(v)[0]) == Kind(v)
  {
    if v.Number? && v.n >= 0 { assert Digits(v.n)[0] in Digits(v.n); }
  }

  /** Values whose texts begin a common text are equal up to member order, and end at the same place. */
  lemma {:induction false} Readable(a: Json, b: Json, r: Text, q: Text)
    requires CanonicalJson(a) + r == CanonicalJson(b) + q && Ends(r) && Ends(q)
    ensures Same(a, b) && r == q
    decreases Size(a), 1
  {
    hide Quoted, Decimal, Items, Entries, SortedKeys;
    FirstUnitTellsKind(a);
    FirstUnitTellsKind(b);
    assert (CanonicalJson(a) + r)[0] == CanonicalJson(a)[0] && (CanonicalJson(b) + q)[0] == CanonicalJson(b)[0];
    match (a, b)
    case (Number(m), Number(n)) => DecimalReadable(m, n, r, q);
    case (Str(s), Str(t)) => QuotedReadable(s, t, r, q);
    case (Arr(s), Arr(t)) =>
      assert CanonicalJson(a) + r == [0x5B] + (Items(s, true) + r) && CanonicalJson(b) + q == [0x5B] + (Items(t, true) + q);
      SplitAlike([0x5B], Items(s, true) + r, [0x5B], Items(t, true) + q);
      ItemsReadable(s, t, true, r, q);
    case (Obj(m), Obj(n)) =>
      SortedKeysAre(m);
      SortedKeysAre(n);
      var e, f := Entries(m, SortedKeys(m), true), Entries(n, SortedKeys(n), true);
      assert CanonicalJson(a) + r == [0x7B] + (e + r) && CanonicalJson(b) + q == [0x7B] + (f + q);
      SplitAlike([0x7B], e + r, [0x7B], f + q);
      EntriesReadable(m, n, SortedKeys(m), SortedKeys(n), true, r, q);
    case _ => SplitAlike(CanonicalJson(a), r, CanonicalJson(b), q);
  }

  lemma {:induction false} ItemsReadable(s: seq<Json>, t: seq<Json>, first: bool, r: Text, q: Text)
    requires Items(s, first) + r == Items(t, first) + q && Ends(r) && Ends(q)
    ensures SameItems(s, t) && r == q
    decreases ItemsSize(s), 0
  {
    hide CanonicalJson;
    var x, y := Items(s, first) + r, Items(t, first) + q;
    if s != [] { FirstUnitTellsKind(s[0]); }
    if t != [] { FirstUnitTellsKind(t[0]); }
    assert x[0] == Items(s, first)[0] && y[0] == Items(t, first)[0];
    if s != [] && t != [] {
      var comma := if first then [] else [COMMA];
      var u, v := CanonicalJson(s[0]) + (Items(s[1..], false) + r), CanonicalJson(t[0]) + (Items(t[1..], false) + q);
      assert x == comma + u && y == comma + v;
      SplitAlike(comma, u, comma, v);
      ItemsEnd(s[1..], r);
      ItemsEnd(t[1..], q);
      Readable(s[0], t[0], Items(s[1..], false) + r, Items(t[1..], false) + q);
      ItemsReadable(s[1..], t[1..], false, r, q);
    } else if s == [] && t == [] {
      SplitAlike([0x5D], r, [0x5D], q);
    }
  }

  lemma ItemsEnd(s: seq<Json>, r: Text)
    ensures Ends(Items(s, false) + r)
  {
    hide CanonicalJson;
    assert (Items(s, false) + r)[0] == Items(s, false)[0];
  }

  lemma EntriesEnd(m: seq<Member>, keys: seq<Text>, r: Text)
    requires forall k <- keys :: HasKey(m, k)
    ensures Ends(Entries(m, keys, false) + r)
  {
    hide CanonicalJson, Quoted;
    assert (Entries(m, keys, false) + r)[0] == Entries(m, keys, false)[0];
  }

  lemma Regroup(a: Text, b: Text, c: Text, d: Text, e: Text, r: Text)
    ensures a + b + c + d + e + r == a + (b + (c + (d + (e + r))))
  {
    assert a + b + c + d + e + r == a + b + c + d + (e + r);
    assert a + b + c + d + (e + r) == a + b + c + (d + (e + r));
    assert a + b + c + (d + (e + r)) == a + b + (c + (d + (e + r)));
  }

  /** The first entries of two lists that print alike: same key, and the values' texts go on alike. */
  lemma FirstEntry(m: seq<Member>, n: seq<Member>, j: seq<Text>, k: seq<Text>, first: bool, r: Text, q: Text)
    requires (forall x <- j :: HasKey(m, x)) && (forall x <- k :: HasKey(n, x)) && j != [] && k != []
    requires Entries(m, j, first) + r == Entries(n, k, first) + q
    ensures j[0] == k[0]
    ensures CanonicalJson(Lookup(m, j[0])) + (Entries(m, j[1..], false) + r)
            == CanonicalJson(Lookup(n, k[0])) + (Entries(n, k[1..], false) + q)
  {
    hide CanonicalJson, Quoted, Lookup;
    var comma := if first then [] else [COMMA];
    var restJ := CanonicalJson(Lookup(m, j[0])) + (Entries(m, j[1..], false) + r);
    var restK := CanonicalJson(Lookup(n, k[0])) + (Entries(n, k[1..], false) + q);
    Regroup(comma, Quoted(j[0]), [COLON], CanonicalJson(Lookup(m, j[0])), Entries(m, j[1..], false), r);
    Regroup(comma, Quoted(k[0]), [COLON], CanonicalJson(Lookup(n, k[0])), Entries(n, k[1..], false), q);
    SplitAlike(comma, Quoted(j[0]) + ([COLON] + restJ), comma, Quoted(k[0]) + ([COLON] + restK));
    QuotedReadable(j[0], k[0], [COLON] + restJ, [COLON] + restK);
    SplitAlike([COLON], restJ, [COLON], restK);
  }

  lemma EntriesStart(m: seq<Member>, j: seq<Text>, first: bool, r: Text)
    requires forall x <- j :: HasKey(m, x)
    ensures Entries(m, j, first) + r != []
    ensures (Entries(m, j, first) + r)[0] == if j == [] then 0x7D else if first then QUOTE else COMMA
  {
    hide CanonicalJson;
    assert (Entries(m, j, first) + r)[0] == Entries(m, j, first)[0];
  }

  lemma {:induction false} EntriesReadable(m: seq<Member>, n: seq<Member>, j: seq<Text>, k: seq<Text>, first: bool, r: Text, q: Text)
    requires (forall x <- j :: HasKey(m, x)) && (forall x <- k :: HasKey(n, x))
    requires Entries(m, j, first) + r == Entries(n, k, first) + q && Ends(r) && Ends(q)
    ensures j == k && r == q && forall x <- j :: Same(Lookup(m, x), Lookup(n, x))
    decreases MembersSize(m), 0, |j|
  {
    hide CanonicalJson, Entries, Same;
    EntriesStart(m, j, first, r);
    EntriesStart(n, k, first, q);
    if j != [] && k != [] {
      FirstEntry(m, n, j, k, first, r, q);
      EntriesEnd(m, j[1..], r);
      EntriesEnd(n, k[1..], q);
      Readable(Lookup(m, j[0]), Lookup(n, k[0]), Entries(m, j[1..], false) + r, Entries(n, k[1..], false) + q);
      EntriesReadable(m, n, j[1..], k[1..], false, r, q);
      assert j == [j[0]] + j[1..] && k == [k[0]] + k[1..];
    } else {
      NoEntries(m, r);
      NoEntries(n, q);
      SplitAlike([0x7D], r, [0x7D], q);
    }
  }

  lemma NoEntries(m: seq<Member>, r: Text)
    ensures forall first :: Entries(m, [], first) == [0x7D]
  {
  }

  /** Two values print alike exactly when they are equal up to object member order. */
  lemma CanonicalFormIsUnambiguous(a: Json, b: Json)
    ensures CanonicalJson(a) == CanonicalJson(b) <==> Same(a, b)
  {
    hide CanonicalJson, Same;
    if CanonicalJson(a) == CanonicalJson(b) { Readable(a, b, [], []); }
    if Same(a, b) { SamePrintAlike(a, b); }
  }
}
