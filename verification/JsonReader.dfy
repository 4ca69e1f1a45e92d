/**
 A reader for RFC 8259, written from its grammar and not from the printer, for texts without insignificant white
 space and numbers without fraction or exponent. What the canonical printer writes, it reads back.
 */
module JsonReader {
  import opened Common
  import opened Printer = CanonicalJson

  // ---------------------------------------------------------------- the grammar

  /** HEXDIG, in either case. */
  function Hex(u: Unit): Option<nat> {
    if 0x30 <= u <= 0x39 then Some(u - 0x30) else if 0x41 <= u <= 0x46 then Some(u - 0x41 + 10)
    else if 0x61 <= u <= 0x66 then Some(u - 0x61 + 10) else None
  }

  /** The unit an escape stands for, and how many units the escape takes; section 7. */
  function ReadEscape(t: Text): (r: Option<(Unit, nat)>)
    requires t != []
    ensures r.Some? ==> 2 <= r.value.1 <= |t|
  {
    if |t| < 2 then None
    else if t[1] in {0x22, 0x5C, 0x2F} then Some((t[1], 2))
    else if t[1] == 0x62 then Some((0x08, 2)) else if t[1] == 0x66 then Some((0x0C, 2)) else if t[1] == 0x6E then Some((0x0A, 2))
    else if t[1] == 0x72 then Some((0x0D, 2)) else if t[1] == 0x74 then Some((0x09, 2))
    else if t[1] == 0x75 && |t| >= 6 && Hex(t[2]).Some? && Hex(t[3]).Some? && Hex(t[4]).Some? && Hex(t[5]).Some?
    then Some((FourHex(Hex(t[2]).value, Hex(t[3]).value, Hex(t[4]).value, Hex(t[5]).value), 6))
    else None
  }

  function FourHex(a: nat, b: nat, c: nat, d: nat): Unit
    requires a < 16 && b < 16 && c < 16 && d < 16
  {
    ((a * 16 + b) * 16 + c) * 16 + d
  }

  /** The rest of a string, after its opening quotation mark. */
  function ReadChars(t: Text): (r: Option<(Text, Text)>)
    ensures r.Some? ==> |r.value.1| < |t|
  {
    if t == [] || t[0] < 0x20 then None
    else if t[0] == 0x22 then Some(([], t[1..]))
    else if t[0] == 0x5C then
      match ReadEscape(t)
      case None => None
      case Some((u, n)) => Prepend(u, ReadChars(t[n..]))
    else Prepend(t[0], ReadChars(t[1..]))
  }

  function Prepend(u: Unit, r: Option<(Text, Text)>): Option<(Text, Text)> {
    if r.Some? then Some(([u] + r.value.0, r.value.1)) else None
  }

  predicate Digit(t: Text) {
    t != [] && 0x30 <= t[0] <= 0x39
  }

  function ReadDigits(t: Text, before: nat): (r: (nat, Text))
    ensures |r.1| <= |t| && (Digit(t) ==> |r.1| < |t|)
  {
    if Digit(t) then ReadDigits(t[1..], before * 10 + (t[0] - 0x30)) else (before, t)
  }

  /** `[ minus ] int` of section 6: no leading zero, and nothing that would make it a fraction or an exponent. */
  function ReadNumber(t: Text): (r: Option<(Json, Text)>)
    ensures r.Some? ==> |r.value.1| < |t|
  {
    var negative := t != [] && t[0] == 0x2D;
    var digits := if negative then t[1..] else t;
    if !Digit(digits) || (digits[0] == 0x30 && Digit(digits[1..])) then None
    else
      var (n, rest) := ReadDigits(digits, 0);
      if (rest != [] && rest[0] in {0x2E, 0x45, 0x65}) || n > 0x1f_ffff_ffff_ffff then None
      else
        var value: int := n;
        Some((Number(if negative then -value else value), rest))
  }

  function ReadLiteral(t: Text, literal: Text, v: Json): (r: Option<(Json, Text)>)
    requires literal != []
    ensures r.Some? ==> |r.value.1| < |t|
  {
    if literal <= t then Some((v, t[|literal|..])) else None
  }

  function ReadValue(t: Text): (r: Option<(Json, Text)>)
    ensures r.Some? ==> |r.value.1| < |t|
    decreases |t|, 0
  {
    if t == [] then None
    else if t[0] == 0x6E then ReadLiteral(t, [0x6E, 0x75, 0x6C, 0x6C], Null)
    else if t[0] == 0x74 then ReadLiteral(t, [0x74, 0x72, 0x75, 0x65], Bool(true))
    else if t[0] == 0x66 then ReadLiteral(t, [0x66, 0x61, 0x6C, 0x73, 0x65], Bool(false))
    else if t[0] == 0x22 then
      match ReadChars(t[1..])
      case None => None
      case Some((s, rest)) => Some((Str(s), rest))
    else if t[0] == 0x5B then
      if |t| > 1 && t[1] == 0x5D then Some((Arr([]), t[2..]))
      else
        match ReadItems(t[1..])
        case None => None
        case Some((items, rest)) => Some((Arr(items), rest))
    else if t[0] == 0x7B then
      if |t| > 1 && t[1] == 0x7D then Some((Obj([]), t[2..]))
      else
        match ReadMembers(t[1..])
        case None => None
        case Some((members, rest)) => Some((Obj(members), rest))
    else ReadNumber(t)
  }

  /** `value *( value-separator value ) end-array`. */
  function ReadItems(t: Text): (r: Option<(seq<Json>, Text)>)
    ensures r.Some? ==> |r.value.1| < |t|
    decreases |t|, 1
  {
    match ReadValue(t)
    case None => None
    case Some((v, rest)) =>
      if rest == [] then None
      else if rest[0] == 0x5D then Some(([v], rest[1..]))
      else if rest[0] != 0x2C then None
      else
        match ReadItems(rest[1..])
        case None => None
        case Some((items, end)) => Some(([v] + items, end))
  }

  /** `member *( value-separator member ) end-object`. */
  function ReadMembers(t: Text): (r: Option<(seq<Member>, Text)>)
    ensures r.Some? ==> |r.value.1| < |t|
    decreases |t|, 1
  {
    match ReadMember(t)
    case None => None
    case Some((m, rest)) =>
      if rest == [] then None
      else if rest[0] == 0x7D then Some(([m], rest[1..]))
      else if rest[0] != 0x2C then None
      else
        match ReadMembers(rest[1..])
        case None => None
        case Some((members, end)) => Some(([m] + members, end))
  }

  /** `string name-separator value`. */
  function ReadMember(t: Text): (r: Option<(Member, Text)>)
    ensures r.Some? ==> |r.value.1| < |t|
    decreases |t|, 0
  {
    if t == [] || t[0] != 0x22 then None
    else
      match ReadChars(t[1..])
      case None => None
      case Some((key, rest)) =>
        if rest == [] || rest[0] != 0x3A then None
        else
          match ReadValue(rest[1..])
          case None => None
          case Some((v, end)) => Some((Member(key, v), end))
  }

  /** A JSON text: one value and nothing after it. */
  function Read(t: Text): Option<Json> {
    match ReadValue(t)
    case None => None
    case Some((v, rest)) => if rest == [] then Some(v) else None
  }

  // ---------------------------------------------------------------- the order of names

  /** By UTF-16 code units: a proper prefix first, otherwise the smaller unit where they first differ. */
  ghost predicate Before(a: Text, b: Text) {
    exists p: nat :: p <= |a| && p < |b| && a[..p] == b[..p] && (p == |a| || a[p] < b[p])
  }

  lemma {:induction false} LessIsBefore(a: Text, b: Text)
    requires Less(a, b)
    ensures Before(a, b)
  {
    if a != [] && a[0] == b[0] {
      LessIsBefore(a[1..], b[1..]);
      var p: nat :| p <= |a[1..]| && p < |b[1..]| && a[1..][..p] == b[1..][..p] && (p == |a[1..]| || a[1..][p] < b[1..][p]);
      assert a[..p + 1] == [a[0]] + a[1..][..p] && b[..p + 1] == [b[0]] + b[1..][..p];
    } else {
      assert a[..0] == b[..0];
    }
  }

  ghost predicate NamesAscend(members: seq<Member>) {
    forall i | 0 < i < |members| :: Before(members[i - 1].key, members[i].key)
  }

  /** In every object, at every depth. */
  ghost predicate Ascending(v: Json)
    decreases Size(v), 1
  {
    match v
    case Arr(items) => AllAscending(items)
    case Obj(members) => NamesAscend(members) && ValuesAscending(members)
    case _ => true
  }

  ghost predicate AllAscending(items: seq<Json>)
    decreases ItemsSize(items), 0
  {
    items == [] || (Ascending(items[0]) && AllAscending(items[1..]))
  }

  ghost predicate ValuesAscending(members: seq<Member>)
    decreases MembersSize(members), 0
  {
    members == [] || (Ascending(members[0].value) && ValuesAscending(members[1..]))
  }

  // ---------------------------------------------------------------- reading what was printed

  lemma HexReads(d: nat)
    requires d < 16
    ensures Hex(HexDigit(d)) == Some(d)
  {
  }

  lemma EscapeReads(u: Unit, lone: bool, rest: Text)
    ensures var e := Escape(u, lone);
            e[0] != 0x22 && e[0] >= 0x20
            && (if e[0] == 0x5C then ReadEscape(e + rest) == Some((u, |e|)) else e == [u])
  {
    if ShortEscape(u) == 0 && (u < 0x20 || lone) {
      HexReads(u / 4096);
      HexReads(u / 256 % 16);
      HexReads(u / 16 % 16);
      HexReads(u % 16);
      HexRoundTrip(u);
      hide HexDigit, Hex;
      assert Escape(u, lone) == HexEscape(u);
    }
  }

  lemma {:induction false} BodyReads(s: Text, i: nat, rest: Text)
    requires i <= |s|
    ensures ReadChars(Body(s, i) + rest) == Some((s[i..], rest))
    decreases |s| - i
  {
    hide Escape, Lone, ReadEscape;
    if i == |s| {
      assert ([0x22] + rest)[1..] == rest;
    } else {
      var e, more := Escape(s[i], Lone(s, i)), Body(s, i + 1) + rest;
      var t := Body(s, i) + rest;
      assert t == e + more;
      assert t[0] == e[0] && t[|e|..] == more;
      EscapeReads(s[i], Lone(s, i), more);
      BodyReads(s, i + 1, rest);
      assert s[i..] == [s[i]] + s[i + 1..];
    }
  }

  lemma QuotedReads(s: Text, rest: Text)
    ensures Quoted(s) + rest != [] && (Quoted(s) + rest)[0] == 0x22
    ensures ReadChars((Quoted(s) + rest)[1..]) == Some((s, rest))
  {
    BodyReads(s, 0, rest);
    assert (Quoted(s) + rest)[1..] == Body(s, 0) + rest && s[0..] == s;
  }

  lemma {:induction false} DigitsRead(n: nat, rest: Text)
    ensures Digit(Digits(n) + rest) && ReadDigits(Digits(n) + rest, 0) == ReadDigits(rest, n)
    ensures (Digits(n) + rest)[0] == 0x30 ==> n == 0 && Digits(n) == [0x30]
  {
    var last := [0x30 + n % 10];
    if n < 10 {
      assert (Digits(n) + rest)[1..] == rest;
    } else {
      DigitsRead(n / 10, last + rest);
      assert Digits(n) + rest == Digits(n / 10) + (last + rest);
      assert (last + rest)[1..] == rest;
      assert ReadDigits(last + rest, n / 10) == ReadDigits(rest, n / 10 * 10 + n % 10);
    }
  }

  lemma NumberReads(n: SafeInteger, rest: Text)
    requires Ends(rest)
    ensures ReadNumber(Decimal(n) + rest) == Some((Number(n), rest))
    ensures (Decimal(n) + rest)[0] == 0x2D || 0x30 <= (Decimal(n) + rest)[0] <= 0x39
  {
    var m: nat := if n < 0 then -n else n;
    DigitsRead(m, rest);
    assert ReadDigits(rest, m) == (m, rest);
    var t := Digits(m) + rest;
    if n < 0 { assert Decimal(n) + rest == [0x2D] + t && ([0x2D] + t)[1..] == t; }
    if t[0] == 0x30 { assert t[1..] == rest; }
  }

  lemma LiteralReads(literal: Text, v: Json, rest: Text)
    requires literal != []
    ensures ReadLiteral(literal + rest, literal, v) == Some((v, rest))
  {
    assert (literal + rest)[..|literal|] == literal && (literal + rest)[|literal|..] == rest;
  }

  /** Whatever is printed is read back as the same value, with its names in order, up to where it ends. */
  lemma {:induction false} ReadsBack(v: Json, rest: Text) returns (w: Json)
    requires Ends(rest)
    ensures ReadValue(CanonicalJson(v) + rest) == Some((w, rest)) && Same(v, w) && Ascending(w)
    decreases Size(v), 1
  {
    hide Quoted, Decimal, Items, Entries, SortedKeys, ReadChars, ReadNumber, ReadItems, ReadMembers;
    var t := CanonicalJson(v) + rest;
    w := v;
    match v
    case Null => LiteralReads(CanonicalJson(v), v, rest);
    case Bool(b) => LiteralReads(CanonicalJson(v), v, rest);
    case Number(n) => NumberReads(n, rest);
    case Str(s) => QuotedReads(s, rest);
    case Arr(items) => w := ArrayReadsBack(items, rest);
    case Obj(members) => w := ObjectReadsBack(members, rest);
  }

  lemma {:induction false} ArrayReadsBack(items: seq<Json>, rest: Text) returns (w: Json)
    requires Ends(rest)
    ensures ReadValue(CanonicalJson(Arr(items)) + rest) == Some((w, rest)) && Same(Arr(items), w) && Ascending(w)
    decreases ItemsSize(items), 1
  {
    var t, inner := CanonicalJson(Arr(items)) + rest, Items(items, true) + rest;
    assert t == [0x5B] + inner;
    assert t[0] == 0x5B && t[1..] == inner;
    if items == [] {
      assert inner == [0x5D] + rest && t[2..] == rest;
      w := Arr([]);
    } else {
      hide ReadItems, Items;
      var read := ItemsReadBack(items, rest);
      ItemsDoNotClose(items, rest);
      w := Arr(read);
    }
  }

  lemma ItemsDoNotClose(items: seq<Json>, rest: Text)
    requires items != []
    ensures var inner := Items(items, true) + rest; inner != [] && inner[0] != 0x5D
  {
    hide CanonicalJson;
    FirstUnitTellsKind(items[0]);
    assert (Items(items, true) + rest)[0] == CanonicalJson(items[0])[0];
  }

  lemma {:induction false} ItemsReadBack(items: seq<Json>, rest: Text) returns (read: seq<Json>)
    requires items != []
    ensures ReadItems(Items(items, true) + rest) == Some((read, rest)) && SameItems(items, read) && AllAscending(read)
    decreases ItemsSize(items), 0
  {
    hide CanonicalJson, Same, Ascending, ReadValue;
    var more := Items(items[1..], false) + rest;
    ItemsEnd(items[1..], rest);
    var w := ReadsBack(items[0], more);
    assert Items(items, true) + rest == CanonicalJson(items[0]) + more;
    if items[1..] == [] {
      assert more == [0x5D] + rest && more[1..] == rest;
      read := [w];
    } else {
      assert more == [0x2C] + (Items(items[1..], true) + rest);
      assert more[1..] == Items(items[1..], true) + rest;
      var others := ItemsReadBack(items[1..], rest);
      read := [w] + others;
      assert read[1..] == others;
    }
  }

  lemma {:induction false} ObjectReadsBack(members: seq<Member>, rest: Text) returns (w: Json)
    requires Ends(rest)
    ensures ReadValue(CanonicalJson(Obj(members)) + rest) == Some((w, rest)) && Same(Obj(members), w) && Ascending(w)
    decreases MembersSize(members), 2
  {
    hide CanonicalJson, Same, Ascending, ReadValue, Items, Entries, SortedKeys;
    SortedKeysAre(members);
    var keys := SortedKeys(members);
    ObjectText(members, rest);
    var inner := Entries(members, keys, true) + rest;
    if keys == [] {
      NoEntries(members, rest);
      ObjectReads([0x7D] + rest, [], rest);
      ReadMembersAreThe(members, keys, []);
      w := Obj([]);
    } else {
      EntriesStart(members, keys, true, rest);
      var read := EntriesReadBack(members, keys, rest);
      ObjectReads(inner, read, rest);
      ReadMembersAreThe(members, keys, read);
      w := Obj(read);
    }
    SameAsRead(members, w.members);
  }

  lemma ObjectText(members: seq<Member>, rest: Text)
    ensures forall k <- SortedKeys(members) :: HasKey(members, k)
    ensures CanonicalJson(Obj(members)) + rest == [0x7B] + (Entries(members, SortedKeys(members), true) + rest)
  {
    SortedKeysAre(members);
    hide Entries, SortedKeys;
  }

  /** What follows an opening brace decides how the object is read. */
  lemma ObjectReads(inner: Text, read: seq<Member>, rest: Text)
    requires if read == [] then inner == [0x7D] + rest
             else inner != [] && inner[0] != 0x7D && ReadMembers(inner) == Some((read, rest))
    ensures ReadValue([0x7B] + inner) == Some((Obj(read), rest))
  {
    hide ReadMembers;
    var t := [0x7B] + inner;
    assert t[0] == 0x7B && t[1..] == inner;
    if read == [] { assert t[2..] == rest; }
  }

  lemma SameAsRead(members: seq<Member>, read: seq<Member>)
    requires (forall k :: HasKey(members, k) <==> HasKey(read, k)) && SameMembers(members, read)
    requires NamesAscend(read) && ValuesAscending(read)
    ensures Same(Obj(members), Obj(read)) && Ascending(Obj(read))
  {
    hide NamesAscend;
  }

  /** Entry by entry: each key with a value the same as the one looked up. */
  ghost predicate Entered(members: seq<Member>, keys: seq<Text>, read: seq<Member>) {
    && |read| == |keys|
    && forall i | 0 <= i < |keys| :: read[i].key == keys[i] && HasKey(members, keys[i]) && Same(Lookup(members, keys[i]), read[i].value)
  }

  lemma {:induction false} EntriesReadBack(members: seq<Member>, keys: seq<Text>, rest: Text) returns (read: seq<Member>)
    requires keys != [] && forall k <- keys :: HasKey(members, k)
    ensures ReadMembers(Entries(members, keys, true) + rest) == Some((read, rest))
    ensures Entered(members, keys, read) && ValuesAscending(read)
    decreases MembersSize(members), 0, |keys|
  {
    hide CanonicalJson, Quoted, Same, Ascending, ReadMember, Lookup, HasKey;
    var more := Entries(members, keys[1..], false) + rest;
    EntriesEnd(members, keys[1..], rest);
    var m := EntryReadsBack(members, keys[0], more);
    Regroup([], Quoted(keys[0]), [COLON], CanonicalJson(Lookup(members, keys[0])), Entries(members, keys[1..], false), rest);
    assert Entries(members, keys, true) + rest == Quoted(keys[0]) + ([COLON] + (CanonicalJson(Lookup(members, keys[0])) + more));
    if keys[1..] == [] {
      assert more == [0x7D] + rest && more[1..] == rest;
      read := [m];
    } else {
      LaterEntries(members, keys[1..], rest);
      var others := EntriesReadBack(members, keys[1..], rest);
      read := [m] + others;
      assert read[1..] == others;
    }
  }

  lemma LaterEntries(members: seq<Member>, keys: seq<Text>, rest: Text)
    requires keys != [] && forall k <- keys :: HasKey(members, k)
    ensures var more := Entries(members, keys, false) + rest;
            more != [] && more[0] == 0x2C && more[1..] == Entries(members, keys, true) + rest
  {
    hide CanonicalJson, Quoted, Lookup, HasKey;
    var tail := Quoted(keys[0]) + [COLON] + CanonicalJson(Lookup(members, keys[0])) + Entries(members, keys[1..], false);
    assert Entries(members, keys, true) == tail;
    assert Entries(members, keys, false) == [0x2C] + tail;
    assert (([0x2C] + tail) + rest)[1..] == tail + rest;
  }

  lemma {:induction false} EntryReadsBack(members: seq<Member>, key: Text, more: Text) returns (m: Member)
    requires HasKey(members, key) && Ends(more)
    ensures ReadMember(Quoted(key) + ([COLON] + (CanonicalJson(Lookup(members, key)) + more))) == Some((m, more))
    ensures m.key == key && Same(Lookup(members, key), m.value) && Ascending(m.value)
    decreases Size(Lookup(members, key)), 2
  {
    hide CanonicalJson, Quoted, Same, Ascending, ReadValue, Lookup, HasKey, ReadChars;
    var after := [COLON] + (CanonicalJson(Lookup(members, key)) + more);
    QuotedReads(key, after);
    assert after[1..] == CanonicalJson(Lookup(members, key)) + more;
    var w := ReadsBack(Lookup(members, key), more);
    m := Member(key, w);
  }

  lemma ReadMembersAreThe(members: seq<Member>, keys: seq<Text>, read: seq<Member>)
    requires Sorted(keys) && Entered(members, keys, read) && forall k :: k in keys <==> HasKey(members, k)
    ensures (forall k :: HasKey(members, k) <==> HasKey(read, k)) && SameMembers(members, read) && NamesAscend(read)
  {
    hide Same, Less, Before, Lookup;
    forall k ensures HasKey(members, k) <==> HasKey(read, k) {
      if k in keys {
        var i :| 0 <= i < |keys| && keys[i] == k;
        assert read[i] in read;
      }
    }
    forall i, j | 0 <= i < j < |read| ensures read[i].key != read[j].key {
      LessIsTotal(keys[i], keys[j]);
    }
    forall k | HasKey(members, k) ensures Same(Lookup(members, k), Lookup(read, k)) {
      var i :| 0 <= i < |keys| && keys[i] == k;
      LookupFinds(read, i);
    }
    forall i | 0 < i < |read| ensures Before(read[i - 1].key, read[i].key) {
      LessIsBefore(keys[i - 1], keys[i]);
    }
  }

  lemma {:induction false} LookupFinds(read: seq<Member>, i: nat)
    requires i < |read| && forall i, j | 0 <= i < j < |read| :: read[i].key != read[j].key
    ensures HasKey(read, read[i].key) && Lookup(read, read[i].key) == read[i].value
  {
    assert read[i] in read;
    if i > 0 {
      assert read[1..][i - 1] == read[i];
      LookupFinds(read[1..], i - 1);
    } else {
      assert forall m <- read[1..] :: m.key != read[0].key;
    }
  }

  /** The canonical text is the JSON of its value, with the names of every object in order. */
  lemma CanonicalTextIsTheValue(v: Json)
    ensures Read(CanonicalJson(v)).Some?
    ensures Same(v, Read(CanonicalJson(v)).value) && Ascending(Read(CanonicalJson(v)).value)
  {
    hide CanonicalJson, Same, Ascending, ReadValue;
    var w := ReadsBack(v, []);
    assert CanonicalJson(v) + [] == CanonicalJson(v);
  }
}
