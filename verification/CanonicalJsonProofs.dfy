/** Canonical text can be read back, so two values print alike exactly when they mean the same. */
module CanonicalJsonProofs {
  import opened Options
  import opened Text
  import opened Sorting
  import opened CanonicalJson

  lemma HexRoundTrip(d: int)
    requires 0 <= d < 16
    ensures HexValue(HexDigit(d)) == Some(d)
  {}

  lemma HexSplit(u: int)
    requires 0 <= u < 0x1_0000
    ensures 0 <= u / 4096 < 16
    ensures u / 4096 * 4096 + u / 256 % 16 * 256 + u / 16 % 16 * 16 + u % 16 == u
  {
    assert u / 16 == u / 16 / 16 * 16 + u / 16 % 16;
    assert u / 256 == u / 256 / 16 * 16 + u / 256 % 16;
  }

  lemma EscapeRoundTrip(u: CodeUnit, rest: Text)
    ensures ReadUnit(UnicodeEscape(u) + rest) == Some((u, rest))
  {
    var a, b, c, d := u / 4096, u / 256 % 16, u / 16 % 16, u % 16;
    HexSplit(u);
    FourDigits(a, b, c, d, rest);
  }

  lemma FourDigits(a: int, b: int, c: int, d: int, rest: Text)
    requires 0 <= a < 16 && 0 <= b < 16 && 0 <= c < 16 && 0 <= d < 16
    ensures ReadUnit([BACKSLASH, 117, HexDigit(a), HexDigit(b), HexDigit(c), HexDigit(d)] + rest)
         == Some((a * 4096 + b * 256 + c * 16 + d, rest))
  {
    var t: Text := [BACKSLASH, 117, HexDigit(a), HexDigit(b), HexDigit(c), HexDigit(d)] + rest;
    HexRoundTrip(a);
    HexRoundTrip(b);
    HexRoundTrip(c);
    HexRoundTrip(d);
    assert t[2] == HexDigit(a) && t[3] == HexDigit(b) && t[4] == HexDigit(c) && t[5] == HexDigit(d);
    assert t[6..] == rest;
  }

  lemma UnitRoundTrip(u: CodeUnit, lone: bool, rest: Text)
    ensures ReadUnit(QuoteUnit(u, lone) + rest) == Some((u, rest))
    ensures QuoteUnit(u, lone)[0] != QUOTE
  {
    var q := QuoteUnit(u, lone);
    if |q| == 1 {
      assert (q + rest)[1..] == rest;
    } else if |q| == 2 {
      assert (q + rest)[2..] == rest;
    } else {
      EscapeRoundTrip(u, rest);
    }
  }

  lemma ReadStringStep(u: CodeUnit, t: Text, tail: Text, s: Text, rest: Text)
    requires t != [] && t[0] != QUOTE && ReadUnit(t) == Some((u, tail))
    requires ReadString(tail) == Some((s, rest))
    ensures ReadString(t) == Some(([u] + s, rest))
  {}

  lemma TakeFirst(s: Text, i: nat)
    requires i < |s|
    ensures s[i..] == [s[i]] + s[i + 1..]
  {}

  lemma {:induction false} StringRoundTrip(s: Text, i: nat, rest: Text)
    requires i <= |s|
    ensures ReadString(QuoteFrom(s, i) + rest) == Some((s[i..], rest))
    decreases |s| - i
  {
    var t := QuoteFrom(s, i) + rest;
    if i == |s| {
      assert t[1..] == rest;
      assert s[i..] == [];
    } else {
      var q := QuoteUnit(s[i], LoneSurrogate(s, i));
      var tail := QuoteFrom(s, i + 1) + rest;
      assert t == q + tail;
      UnitRoundTrip(s[i], LoneSurrogate(s, i), tail);
      StringRoundTrip(s, i + 1, rest);
      ReadStringStep(s[i], t, tail, s[i + 1..], rest);
      TakeFirst(s, i);
    }
  }

  lemma NatRoundTrip(n: nat, rest: Text)
    requires EndsNumeral(rest)
    ensures ReadNat(PrintNat(n) + rest) == Some((n, rest))
  {
    var digits := PrintNat(n);
    DigitSpanOfRun(digits, rest);
    PrintNatRoundTrip(n);
    assert (digits + rest)[..|digits|] == digits;
    assert (digits + rest)[|digits|..] == rest;
  }

  /** text denotes doc whatever follows it, as long as what follows does not prolong a numeral. */
  ghost predicate Reads(text: Text, doc: Doc) {
    && text != []
    && text[0] != 93
    && forall rest | EndsNumeral(rest) :: ReadValue(text + rest) == Some((doc, rest))
  }

  lemma LiteralReads(literal: Text, d: Doc, rest: Text)
    requires literal != []
    ensures ReadLiteral(literal + rest, literal, d) == Some((d, rest))
  {
    assert (literal + rest)[|literal|..] == rest;
  }

  lemma ReadMinus(digits: Text, m: nat, rest: Text)
    requires ReadNat(digits + rest) == Some((m, rest))
    ensures ReadInt([45] + digits + rest) == Some((DInt(0 - m), rest))
  {
    var t := [45] + digits + rest;
    assert t[1..] == digits + rest;
  }

  lemma ReadNonNegative(n: nat, rest: Text)
    requires EndsNumeral(rest)
    ensures ReadInt(PrintNat(n) + rest) == Some((DInt(n), rest))
    ensures IsDigitUnit(PrintNat(n)[0])
  {
    NatRoundTrip(n, rest);
    assert IsDigitUnit(PrintNat(n)[0]);
    assert (PrintNat(n) + rest)[0] == PrintNat(n)[0];
  }

  lemma ReadIntOfPrint(n: int, rest: Text)
    requires EndsNumeral(rest)
    ensures ReadInt(PrintInt(n) + rest) == Some((DInt(n), rest))
    ensures PrintInt(n)[0] == 45 || IsDigitUnit(PrintInt(n)[0])
  {
    if n < 0 {
      NatRoundTrip(-n, rest);
      ReadMinus(PrintNat(-n), -n, rest);
    } else {
      ReadNonNegative(n, rest);
    }
  }

  lemma IntReads(n: int, rest: Text)
    requires EndsNumeral(rest)
    ensures ReadValue(PrintInt(n) + rest) == Some((DInt(n), rest))
  {
    ReadIntOfPrint(n, rest);
    var t := PrintInt(n) + rest;
    assert t[0] == PrintInt(n)[0];
  }

  lemma QuoteRoundTrip(s: Text, rest: Text)
    ensures (Quote(s) + rest)[0] == QUOTE
    ensures ReadString((Quote(s) + rest)[1..]) == Some((s, rest))
  {
    StringRoundTrip(s, 0, rest);
    assert (Quote(s) + rest)[1..] == QuoteFrom(s, 0) + rest;
    assert s[0..] == s;
  }

  lemma QuotedReads(s: Text, rest: Text)
    ensures ReadValue(Quote(s) + rest) == Some((DStr(s), rest))
  {
    QuoteRoundTrip(s, rest);
  }

  lemma ScalarReadsAt(v: Json, rest: Text)
    requires v.Null? || v.Bool? || v.Int? || v.Str?
    requires EndsNumeral(rest)
    ensures ReadValue(Print(v) + rest) == Some((Meaning(v), rest))
    ensures Print(v) != [] && Print(v)[0] != 93
  {
    match v
    case Null => LiteralReads(Ascii("null"), DNull, rest);
    case Bool(b) =>
      if b { LiteralReads(Ascii("true"), DBool(true), rest); } else { LiteralReads(Ascii("false"), DBool(false), rest); }
    case Int(n) =>
      IntReads(n, rest);
      if n >= 0 { assert IsDigitUnit(PrintNat(n)[0]); }
    case Str(s) => QuotedReads(s, rest);
  }

  lemma ScalarReads(v: Json)
    requires v.Null? || v.Bool? || v.Int? || v.Str?
    ensures Reads(Print(v), Meaning(v))
  {
    ScalarReadsAt(v, []);
    forall rest | EndsNumeral(rest)
      ensures ReadValue(Print(v) + rest) == Some((Meaning(v), rest))
    {
      ScalarReadsAt(v, rest);
    }
  }

  lemma Reassociate(head: Text, sep: Text, tail: Text, close: Text, rest: Text)
    ensures head + sep + tail + close + rest == head + (sep + (tail + close + rest))
    ensures head + sep + tail + close == head + (sep + (tail + close))
    ensures head + close + rest == head + (close + rest)
  {}

  lemma LastItemReads(text: Text, doc: Doc, rest: Text)
    requires Reads(text, doc)
    ensures ReadItems(text + ([93] + rest)) == Some(([doc], rest))
  {
    var more := [93] + rest;
    assert ReadValue(text + more) == Some((doc, more));
    assert more[1..] == rest;
  }

  lemma FirstItemReads(text: Text, doc: Doc, body: Text, docs: seq<Doc>, rest: Text)
    requires Reads(text, doc) && ReadItems(body) == Some((docs, rest))
    ensures ReadItems(text + ([COMMA] + body)) == Some(([doc] + docs, rest))
  {
    var more := [COMMA] + body;
    assert ReadValue(text + more) == Some((doc, more));
    assert more[1..] == body;
  }

  lemma {:induction false} ItemsRead(texts: seq<Text>, docs: seq<Doc>, rest: Text)
    requires |texts| == |docs| > 0
    requires forall i | 0 <= i < |texts| :: Reads(texts[i], docs[i])
    ensures ReadItems(Join(texts) + [93] + rest) == Some((docs, rest))
    ensures Join(texts) != [] && Join(texts)[0] != 93
  {
    assert Reads(texts[0], docs[0]);
    Reassociate(texts[0], [COMMA], Join(texts[1..]), [93], rest);
    if |texts| == 1 {
      LastItemReads(texts[0], docs[0], rest);
      assert docs == [docs[0]];
    } else {
      ItemsRead(texts[1..], docs[1..], rest);
      FirstItemReads(texts[0], docs[0], Join(texts[1..]) + [93] + rest, docs[1..], rest);
      assert docs == [docs[0]] + docs[1..];
    }
  }

  /** The documents of the given members, by key. */
  ghost function Restricted(ms: seq<Member>, docs: map<Text, Doc>): map<Text, Doc>
    requires forall i | 0 <= i < |ms| :: ms[i].key in docs
  {
    if ms == [] then map[] else Restricted(ms[1..], docs)[ms[0].key := docs[ms[0].key]]
  }

  lemma MemberText(m: Member, more: Text)
    ensures PrintMember(m) + more == Quote(m.key) + ([COLON] + (m.text + more))
  {
    Reassociate(Quote(m.key), [COLON], m.text, more, more);
  }

  lemma MemberHeadReads(m: Member, doc: Doc, more: Text)
    requires Reads(m.text, doc) && EndsNumeral(more)
    ensures var t := PrintMember(m) + more;
      && t[0] == QUOTE
      && ReadString(t[1..]) == Some((m.key, [COLON] + (m.text + more)))
      && ReadValue(m.text + more) == Some((doc, more))
  {
    MemberText(m, more);
    QuoteRoundTrip(m.key, [COLON] + (m.text + more));
  }

  lemma PrintMembersCons(ms: seq<Member>)
    requires ms != []
    ensures PrintMembers(ms) ==
      if |ms| == 1 then PrintMember(ms[0]) else PrintMember(ms[0]) + [COMMA] + PrintMembers(ms[1..])
  {
    var parts := seq(|ms|, i requires 0 <= i < |ms| => PrintMember(ms[i]));
    var parts' := seq(|ms[1..]|, i requires 0 <= i < |ms[1..]| => PrintMember(ms[1..][i]));
    assert parts[1..] == parts';
  }

  lemma PrintMembersSplit(ms: seq<Member>, rest: Text)
    requires ms != []
    ensures PrintMembers(ms) + [125] + rest == PrintMember(ms[0]) + AfterHead(ms, rest)
  {
    PrintMembersCons(ms);
    Reassociate(PrintMember(ms[0]), [COMMA], PrintMembers(ms[1..]), [125], rest);
  }

  /** What follows the first member of a printed object. */
  ghost function AfterHead(ms: seq<Member>, rest: Text): Text
    requires ms != []
  {
    if |ms| == 1 then [125] + rest else [COMMA] + (PrintMembers(ms[1..]) + [125] + rest)
  }

  lemma {:induction false} MembersRead(ms: seq<Member>, docs: map<Text, Doc>, rest: Text)
    requires ms != []
    requires forall i | 0 <= i < |ms| :: ms[i].key in docs && Reads(ms[i].text, docs[ms[i].key])
    ensures ReadMembers(PrintMembers(ms) + [125] + rest) == Some((Restricted(ms, docs), rest))
    ensures (PrintMembers(ms) + [125] + rest)[0] == QUOTE
  {
    var doc := docs[ms[0].key];
    var more := AfterHead(ms, rest);
    PrintMembersSplit(ms, rest);
    var t := PrintMember(ms[0]) + more;
    MemberHeadReads(ms[0], doc, more);
    var afterKey := [COLON] + (ms[0].text + more);
    assert afterKey[1..] == ms[0].text + more;
    if |ms| == 1 {
      assert more[1..] == rest;
      assert ms[1..] == [];
      assert Restricted(ms, docs) == map[ms[0].key := doc];
    } else {
      MembersRead(ms[1..], docs, rest);
      assert more[1..] == PrintMembers(ms[1..]) + [125] + rest;
    }
  }

  // ---------------------------------------------------------------- objects

  lemma KeyLeqIsOrder()
    ensures TotalPreorder(KeyLeq)
  {
    forall x: Member, y: Member ensures KeyLeq(x, y) || KeyLeq(y, x) {
      TextLeqTotal(x.key, y.key);
    }
    forall x: Member, y: Member, z: Member | KeyLeq(x, y) && KeyLeq(y, z) ensures KeyLeq(x, z) {
      TextLeqTransitive(x.key, y.key, z.key);
    }
  }

  ghost predicate DistinctKeys(ms: seq<Member>) {
    forall i, j | 0 <= i < j < |ms| :: ms[i].key != ms[j].key
  }

  lemma DistinctKeysNoTies(ms: seq<Member>)
    requires DistinctKeys(ms)
    ensures NoTies(KeyLeq, ms) && Distinct(ms)
  {
    forall x, y | x in ms && y in ms && KeyLeq(x, y) && KeyLeq(y, x) ensures x == y {
      TextLeqTotal(x.key, y.key);
    }
  }

  lemma {:induction false} MembersOfContents(pairs: seq<(Text, Doc)>)
    requires forall i, j | 0 <= i < j < |pairs| :: pairs[i].0 != pairs[j].0
    ensures forall i | 0 <= i < |pairs| :: pairs[i].0 in MembersOf(pairs) && MembersOf(pairs)[pairs[i].0] == pairs[i].1
    ensures forall k | k in MembersOf(pairs) :: exists i :: 0 <= i < |pairs| && pairs[i].0 == k
  {
    if pairs != [] {
      MembersOfContents(pairs[1..]);
      forall i | 0 <= i < |pairs|
        ensures pairs[i].0 in MembersOf(pairs) && MembersOf(pairs)[pairs[i].0] == pairs[i].1
      {
        if i > 0 { assert pairs[i] == pairs[1..][i - 1]; }
      }
      forall k | k in MembersOf(pairs) ensures exists i :: 0 <= i < |pairs| && pairs[i].0 == k {
        if k != pairs[0].0 {
          var i :| 0 <= i < |pairs[1..]| && pairs[1..][i].0 == k;
          assert pairs[i + 1].0 == k;
        }
      }
    }
  }

  lemma {:induction false} RestrictedContents(ms: seq<Member>, docs: map<Text, Doc>)
    requires forall i | 0 <= i < |ms| :: ms[i].key in docs
    ensures forall i | 0 <= i < |ms| :: ms[i].key in Restricted(ms, docs)
    ensures forall k | k in Restricted(ms, docs) :: k in docs && Restricted(ms, docs)[k] == docs[k]
  {
    if ms != [] {
      RestrictedContents(ms[1..], docs);
      forall i | 0 <= i < |ms| ensures ms[i].key in Restricted(ms, docs) {
        if i > 0 { assert ms[i] == ms[1..][i - 1]; }
      }
    }
  }

  ghost function FieldMembers(fields: seq<Field>): seq<Member> {
    seq(|fields|, i requires 0 <= i < |fields| => Member(fields[i].key, Print(fields[i].value)))
  }

  ghost function FieldDocs(fields: seq<Field>): seq<(Text, Doc)> {
    seq(|fields|, i requires 0 <= i < |fields| => (fields[i].key, Meaning(fields[i].value)))
  }

  lemma PrintObject(fields: seq<Field>)
    ensures Print(Obj(fields)) == [123] + PrintMembers(Sort(KeyLeq, FieldMembers(fields))) + [125]
    ensures Meaning(Obj(fields)) == DObj(MembersOf(FieldDocs(fields)))
  {
    assert seq(|fields|, i requires 0 <= i < |fields| => Member(fields[i].key, Print(fields[i].value)))
        == FieldMembers(fields);
    assert seq(|fields|, i requires 0 <= i < |fields| => (fields[i].key, Meaning(fields[i].value)))
        == FieldDocs(fields);
  }

  lemma BraceReads(body: Text, members: map<Text, Doc>, rest: Text)
    requires body != [] && body[0] == QUOTE && ReadMembers(body) == Some((members, rest))
    ensures ReadValue([123] + body) == Some((DObj(members), rest))
  {
    assert ([123] + body)[1..] == body;
  }

  lemma EmptyObjectReads(rest: Text)
    ensures ReadValue([123] + ([125] + rest)) == Some((DObj(map[]), rest))
  {
    assert ([123] + ([125] + rest))[2..] == rest;
  }

  lemma ObjectReadsAt(ms: seq<Member>, docs: map<Text, Doc>, rest: Text)
    requires forall i | 0 <= i < |ms| :: ms[i].key in docs && Reads(ms[i].text, docs[ms[i].key])
    requires Restricted(ms, docs) == docs
    ensures ReadValue([123] + PrintMembers(ms) + [125] + rest) == Some((DObj(docs), rest))
  {
    var body := PrintMembers(ms) + [125] + rest;
    assert [123] + PrintMembers(ms) + [125] + rest == [123] + body;
    if ms == [] {
      assert body == [125] + rest;
      EmptyObjectReads(rest);
    } else {
      MembersRead(ms, docs, rest);
      BraceReads(body, docs, rest);
    }
  }

  lemma SortedMembersRead(fields: seq<Field>, ms: seq<Member>, docs: map<Text, Doc>)
    requires forall i, j | 0 <= i < j < |fields| :: fields[i].key != fields[j].key
    requires forall i | 0 <= i < |fields| :: Reads(Print(fields[i].value), Meaning(fields[i].value))
    requires multiset(ms) == multiset(FieldMembers(fields)) && docs == MembersOf(FieldDocs(fields))
    ensures forall i | 0 <= i < |ms| :: ms[i].key in docs && Reads(ms[i].text, docs[ms[i].key])
  {
    MembersOfContents(FieldDocs(fields));
    forall i | 0 <= i < |ms| ensures ms[i].key in docs && Reads(ms[i].text, docs[ms[i].key]) {
      assert ms[i] in multiset(ms);
      InMultiset(FieldMembers(fields), ms[i]);
      var k :| 0 <= k < |fields| && FieldMembers(fields)[k] == ms[i];
      assert FieldDocs(fields)[k] == (fields[k].key, Meaning(fields[k].value));
    }
  }

  lemma FieldIsMember(fields: seq<Field>, ms: seq<Member>, i: nat)
    requires multiset(ms) == multiset(FieldMembers(fields)) && i < |fields|
    ensures exists j :: 0 <= j < |ms| && ms[j].key == fields[i].key
  {
    var m := FieldMembers(fields)[i];
    InMultiset(FieldMembers(fields), m);
    InMultiset(ms, m);
    var j :| 0 <= j < |ms| && ms[j] == m;
  }

  lemma SortedMembersCover(fields: seq<Field>, ms: seq<Member>, docs: map<Text, Doc>)
    requires forall i, j | 0 <= i < j < |fields| :: fields[i].key != fields[j].key
    requires multiset(ms) == multiset(FieldMembers(fields)) && docs == MembersOf(FieldDocs(fields))
    requires forall i | 0 <= i < |ms| :: ms[i].key in docs
    ensures Restricted(ms, docs) == docs
  {
    MembersOfContents(FieldDocs(fields));
    RestrictedContents(ms, docs);
    forall k | k in docs ensures k in Restricted(ms, docs) {
      var i :| 0 <= i < |FieldDocs(fields)| && FieldDocs(fields)[i].0 == k;
      FieldIsMember(fields, ms, i);
    }
  }

  lemma ObjectReads(fields: seq<Field>)
    requires forall i, j | 0 <= i < j < |fields| :: fields[i].key != fields[j].key
    requires forall i | 0 <= i < |fields| :: Reads(Print(fields[i].value), Meaning(fields[i].value))
    ensures Reads(Print(Obj(fields)), Meaning(Obj(fields)))
  {
    var ms := Sort(KeyLeq, FieldMembers(fields));
    var docs := MembersOf(FieldDocs(fields));
    PrintObject(fields);
    SortedMembersRead(fields, ms, docs);
    SortedMembersCover(fields, ms, docs);
    forall rest | EndsNumeral(rest)
      ensures ReadValue(Print(Obj(fields)) + rest) == Some((DObj(docs), rest))
    {
      ObjectReadsAt(ms, docs, rest);
    }
  }

  lemma BracketReads(body: Text, docs: seq<Doc>, rest: Text)
    requires body != [] && body[0] != 93 && ReadItems(body) == Some((docs, rest))
    ensures ReadValue([91] + body) == Some((DArr(docs), rest))
  {
    assert ([91] + body)[1..] == body;
  }

  lemma EmptyArrayReads(rest: Text)
    ensures ReadValue([91] + ([93] + rest)) == Some((DArr([]), rest))
  {
    assert ([91] + ([93] + rest))[2..] == rest;
  }

  lemma ArrayReadsAt(texts: seq<Text>, docs: seq<Doc>, rest: Text)
    requires |texts| == |docs|
    requires forall i | 0 <= i < |texts| :: Reads(texts[i], docs[i])
    ensures ReadValue([91] + Join(texts) + [93] + rest) == Some((DArr(docs), rest))
  {
    var body := Join(texts) + [93] + rest;
    assert [91] + Join(texts) + [93] + rest == [91] + body;
    if texts == [] {
      assert body == [93] + rest;
      EmptyArrayReads(rest);
    } else {
      ItemsRead(texts, docs, rest);
      BracketReads(body, docs, rest);
    }
  }

  lemma ArrayReads(items: seq<Json>)
    requires forall i | 0 <= i < |items| :: Reads(Print(items[i]), Meaning(items[i]))
    ensures Reads(Print(Arr(items)), Meaning(Arr(items)))
  {
    var texts := seq(|items|, i requires 0 <= i < |items| => Print(items[i]));
    var docs := seq(|items|, i requires 0 <= i < |items| => Meaning(items[i]));
    forall rest | EndsNumeral(rest)
      ensures ReadValue(Print(Arr(items)) + rest) == Some((DArr(docs), rest))
    {
      ArrayReadsAt(texts, docs, rest);
    }
  }

  /** Unique readability: reading the text of a value recovers what the value means and leaves
      the rest of the input untouched. */
  lemma {:induction false} PrintReads(v: Json)
    requires KeysDistinct(v) && Supported(v)
    ensures Reads(Print(v), Meaning(v))
  {
    match v
    case Arr(items) =>
      forall i | 0 <= i < |items| ensures Reads(Print(items[i]), Meaning(items[i])) {
        PrintReads(items[i]);
      }
      ArrayReads(items);
    case Obj(fields) =>
      forall i | 0 <= i < |fields| ensures Reads(Print(fields[i].value), Meaning(fields[i].value)) {
        PrintReads(fields[i].value);
      }
      ObjectReads(fields);
    case _ => ScalarReads(v);
  }

  // ---------------------------------------------------------------- order independence

  lemma {:induction false} SameMeaningSameText(a: Json, b: Json)
    requires KeysDistinct(a) && Supported(a) && KeysDistinct(b) && Supported(b)
    requires Meaning(a) == Meaning(b)
    ensures Print(a) == Print(b)
  {
    match a
    case Arr(items) =>
      var docs := Meaning(a).items;
      forall i | 0 <= i < |items| ensures Print(items[i]) == Print(b.items[i]) {
        assert docs[i] == Meaning(items[i]) == Meaning(b.items[i]);
        SameMeaningSameText(items[i], b.items[i]);
      }
      assert seq(|items|, i requires 0 <= i < |items| => Print(items[i]))
          == seq(|b.items|, i requires 0 <= i < |b.items| => Print(b.items[i]));
    case Obj(fields) =>
      forall i, j | 0 <= i < |fields| && 0 <= j < |b.fields| && fields[i].key == b.fields[j].key
        ensures Print(fields[i].value) == Print(b.fields[j].value)
      {
        MembersOfContents(FieldDocs(fields));
        MembersOfContents(FieldDocs(b.fields));
        assert FieldDocs(fields)[i].0 == FieldDocs(b.fields)[j].0;
        SameMeaningSameText(fields[i].value, b.fields[j].value);
      }
      SameMembersSameText(fields, b.fields);
    case _ =>
  }

  lemma SameMembersSameText(fields: seq<Field>, fields': seq<Field>)
    requires forall i, j | 0 <= i < j < |fields| :: fields[i].key != fields[j].key
    requires forall i, j | 0 <= i < j < |fields'| :: fields'[i].key != fields'[j].key
    requires MembersOf(FieldDocs(fields)) == MembersOf(FieldDocs(fields'))
    requires forall i, j | 0 <= i < |fields| && 0 <= j < |fields'| && fields[i].key == fields'[j].key ::
               Print(fields[i].value) == Print(fields'[j].value)
    ensures Print(Obj(fields)) == Print(Obj(fields'))
  {
    var ms, ms' := FieldMembers(fields), FieldMembers(fields');
    KeyLeqIsOrder();
    DistinctKeysNoTies(ms);
    DistinctKeysNoTies(ms');
    MembersIncluded(fields, fields');
    MembersIncluded(fields', fields);
    SameElementsSameMultiset(ms, ms');
    SortForgetsOrder(KeyLeq, ms, ms');
    PrintObject(fields);
    PrintObject(fields');
  }

  lemma MembersIncluded(fields: seq<Field>, fields': seq<Field>)
    requires forall i, j | 0 <= i < j < |fields| :: fields[i].key != fields[j].key
    requires forall i, j | 0 <= i < j < |fields'| :: fields'[i].key != fields'[j].key
    requires MembersOf(FieldDocs(fields)) == MembersOf(FieldDocs(fields'))
    requires forall i, j | 0 <= i < |fields| && 0 <= j < |fields'| && fields[i].key == fields'[j].key ::
               Print(fields[i].value) == Print(fields'[j].value)
    ensures forall m | m in FieldMembers(fields) :: m in FieldMembers(fields')
  {
    MembersOfContents(FieldDocs(fields));
    MembersOfContents(FieldDocs(fields'));
    forall m | m in FieldMembers(fields) ensures m in FieldMembers(fields') {
      var i :| 0 <= i < |fields| && FieldMembers(fields)[i] == m;
      assert FieldDocs(fields)[i].0 in MembersOf(FieldDocs(fields'));
      var j :| 0 <= j < |FieldDocs(fields')| && FieldDocs(fields')[j].0 == m.key;
      assert FieldMembers(fields')[j] == m;
    }
  }

  // ---------------------------------------------------------------- main results

  /** Canonical JSON is injective up to the order of object members, and blind to that order:
      two values get the same text exactly when neither is refused and both mean the same. */
  lemma CanonicalTextDecidesMeaning(a: Json, b: Json)
    requires KeysDistinct(a) && KeysDistinct(b)
    ensures Canonical(a).Some? && Canonical(a) == Canonical(b)
       <==> Supported(a) && Supported(b) && Meaning(a) == Meaning(b)
  {
    if Canonical(a).Some? && Canonical(a) == Canonical(b) {
      PrintReads(a);
      PrintReads(b);
      assert EndsNumeral([]);
      assert ReadValue(Print(a) + []) == Some((Meaning(a), []));
      assert ReadValue(Print(b) + []) == Some((Meaning(b), []));
    }
    if Supported(a) && Supported(b) && Meaning(a) == Meaning(b) {
      SameMeaningSameText(a, b);
    }
  }

  /** No canonical text is a proper prefix of another unless what follows prolongs a numeral. */
  lemma CanonicalTextIsPrefixFree(a: Json, b: Json, rest: Text)
    requires KeysDistinct(a) && KeysDistinct(b) && Supported(a) && Supported(b)
    requires EndsNumeral(rest)
    requires Print(a) + rest == Print(b)
    ensures rest == []
  {
    PrintReads(a);
    PrintReads(b);
    assert EndsNumeral([]);
    assert ReadValue(Print(b) + []) == Some((Meaning(b), []));
    assert Print(b) + [] == Print(a) + rest;
  }
}
