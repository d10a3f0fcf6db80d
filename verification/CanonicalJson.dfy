/** Canonical JSON text of a plain JavaScript value, and its unique readability.

    Strings are quoted as in section 7 of RFC 8259; object members are printed in code unit
    order of their keys, the order of section 3.2.3 of RFC 8785. */
module CanonicalJson {
  import opened Options
  import opened Text
  import opened Sorting

  /** A value as the program holds it. An object is a list of members in insertion order.
      Unsupported stands for anything the serializer throws on: a non-finite number, undefined,
      or an object that is not a plain one. */
  datatype Json =
    | Null
    | Bool(b: bool)
    | Int(n: int)
    | Str(s: Text)
    | Arr(items: seq<Json>)
    | Obj(fields: seq<Field>)
    | Unsupported

  datatype Field = Field(key: Text, value: Json)

  /** What a value means once the order of object members is forgotten. */
  datatype Doc =
    | DNull
    | DBool(b: bool)
    | DInt(n: int)
    | DStr(s: Text)
    | DArr(items: seq<Doc>)
    | DObj(members: map<Text, Doc>)

  /** Keys of one JavaScript object are distinct, at every depth. */
  ghost predicate KeysDistinct(v: Json) {
    match v
    case Arr(items) => forall i | 0 <= i < |items| :: KeysDistinct(items[i])
    case Obj(fields) =>
      && (forall i, j | 0 <= i < j < |fields| :: fields[i].key != fields[j].key)
      && (forall i | 0 <= i < |fields| :: KeysDistinct(fields[i].value))
    case _ => true
  }

  predicate Supported(v: Json) {
    match v
    case Unsupported => false
    case Arr(items) => forall i | 0 <= i < |items| :: Supported(items[i])
    case Obj(fields) => forall i | 0 <= i < |fields| :: Supported(fields[i].value)
    case _ => true
  }

  ghost function Meaning(v: Json): Doc {
    match v
    case Null => DNull
    case Bool(b) => DBool(b)
    case Int(n) => DInt(n)
    case Str(s) => DStr(s)
    case Arr(items) => DArr(seq(|items|, i requires 0 <= i < |items| => Meaning(items[i])))
    case Obj(fields) => DObj(MembersOf(seq(|fields|, i requires 0 <= i < |fields| =>
      (fields[i].key, Meaning(fields[i].value)))))
    case Unsupported => DNull
  }

  ghost function MembersOf(pairs: seq<(Text, Doc)>): map<Text, Doc> {
    if pairs == [] then map[] else MembersOf(pairs[1..])[pairs[0].0 := pairs[0].1]
  }

  // ---------------------------------------------------------------- printing

  const QUOTE: CodeUnit := 34
  const COMMA: CodeUnit := 44
  const COLON: CodeUnit := 58
  const BACKSLASH: CodeUnit := 92

  predicate IsLead(u: CodeUnit) { 0xD800 <= u <= 0xDBFF }

  predicate IsTrail(u: CodeUnit) { 0xDC00 <= u <= 0xDFFF }

  predicate LoneSurrogate(s: Text, i: nat)
    requires i < |s|
  {
    || (IsLead(s[i]) && !(i + 1 < |s| && IsTrail(s[i + 1])))
    || (IsTrail(s[i]) && !(0 < i && IsLead(s[i - 1])))
  }

  function HexDigit(d: int): (u: CodeUnit)
    requires 0 <= d < 16
  {
    if d < 10 then 48 + d else 87 + d
  }

  function UnicodeEscape(u: CodeUnit): Text {
    [BACKSLASH, 117, HexDigit(u / 4096), HexDigit(u / 256 % 16), HexDigit(u / 16 % 16), HexDigit(u % 16)]
  }

  /** One code unit inside a quoted string. */
  function QuoteUnit(u: CodeUnit, lone: bool): Text {
    if u == 8 then [BACKSLASH, 98]
    else if u == 9 then [BACKSLASH, 116]
    else if u == 10 then [BACKSLASH, 110]
    else if u == 12 then [BACKSLASH, 102]
    else if u == 13 then [BACKSLASH, 114]
    else if u == QUOTE || u == BACKSLASH then [BACKSLASH, u]
    else if u < 32 || lone then UnicodeEscape(u)
    else [u]
  }

  function QuoteFrom(s: Text, i: nat): Text
    requires i <= |s|
    decreases |s| - i
  {
    if i == |s| then [QUOTE] else QuoteUnit(s[i], LoneSurrogate(s, i)) + QuoteFrom(s, i + 1)
  }

  function Quote(s: Text): Text {
    [QUOTE] + QuoteFrom(s, 0)
  }

  function PrintInt(n: int): Text {
    if n < 0 then [45] + PrintNat(-n) else PrintNat(n)
  }

  function Join(parts: seq<Text>): Text {
    if parts == [] then []
    else if |parts| == 1 then parts[0]
    else parts[0] + [COMMA] + Join(parts[1..])
  }

  /** A member ready for printing: its key and the text of its value. */
  datatype Member = Member(key: Text, text: Text)

  predicate KeyLeq(a: Member, b: Member) {
    TextLeq(a.key, b.key)
  }

  function PrintMember(m: Member): Text {
    Quote(m.key) + [COLON] + m.text
  }

  function PrintMembers(ms: seq<Member>): Text {
    Join(seq(|ms|, i requires 0 <= i < |ms| => PrintMember(ms[i])))
  }

  function Print(v: Json): Text {
    match v
    case Null => Ascii("null")
    case Bool(b) => if b then Ascii("true") else Ascii("false")
    case Int(n) => PrintInt(n)
    case Str(s) => Quote(s)
    case Arr(items) => [91] + Join(seq(|items|, i requires 0 <= i < |items| => Print(items[i]))) + [93]
    case Obj(fields) =>
      var members := seq(|fields|, i requires 0 <= i < |fields| => Member(fields[i].key, Print(fields[i].value)));
      [123] + PrintMembers(Sort(KeyLeq, members)) + [125]
    case Unsupported => []
  }

  /** The serializer: None where it throws. */
  function Canonical(v: Json): Option<Text> {
    if Supported(v) then Some(Print(v)) else None
  }

  // ---------------------------------------------------------------- reading back

  function HexValue(u: CodeUnit): Option<CodeUnit> {
    if 48 <= u <= 57 then Some(u - 48)
    else if 97 <= u <= 102 then Some(u - 87)
    else None
  }

  /** Reads one possibly escaped code unit. */
  function ReadUnit(t: Text): (r: Option<(CodeUnit, Text)>)
    requires t != []
    ensures r.Some? ==> |r.value.1| < |t|
  {
    if t[0] != BACKSLASH then Some((t[0], t[1..]))
    else if |t| < 2 then None
    else if t[1] == 98 then Some((8, t[2..]))
    else if t[1] == 116 then Some((9, t[2..]))
    else if t[1] == 110 then Some((10, t[2..]))
    else if t[1] == 102 then Some((12, t[2..]))
    else if t[1] == 114 then Some((13, t[2..]))
    else if t[1] == QUOTE || t[1] == BACKSLASH then Some((t[1], t[2..]))
    else if t[1] == 117 && |t| >= 6 then
      var a, b, c, d := HexValue(t[2]), HexValue(t[3]), HexValue(t[4]), HexValue(t[5]);
      if a.Some? && b.Some? && c.Some? && d.Some? then
        var u := a.value * 4096 + b.value * 256 + c.value * 16 + d.value;
        if u < 0x1_0000 then Some((u, t[6..])) else None
      else None
    else None
  }

  /** Reads the rest of a string whose opening quote is already consumed. */
  function ReadString(t: Text): (r: Option<(Text, Text)>)
    ensures r.Some? ==> |r.value.1| < |t|
    decreases |t|
  {
    if t == [] then None
    else if t[0] == QUOTE then Some(([], t[1..]))
    else
      match ReadUnit(t)
      case None => None
      case Some((u, rest)) =>
        match ReadString(rest)
        case None => None
        case Some((s, rest')) => Some(([u] + s, rest'))
  }

  function ReadNat(t: Text): (r: Option<(nat, Text)>)
    ensures r.Some? ==> |r.value.1| < |t|
  {
    var k := DigitSpan(t);
    if k == 0 then None else Some((NatOf(t[..k]), t[k..]))
  }

  function ReadLiteral(t: Text, literal: Text, d: Doc): (r: Option<(Doc, Text)>)
    requires literal != []
    ensures r.Some? ==> |r.value.1| < |t|
  {
    if literal <= t then Some((d, t[|literal|..])) else None
  }

  function ReadInt(t: Text): (r: Option<(Doc, Text)>)
    ensures r.Some? ==> |r.value.1| < |t|
  {
    var negative := t != [] && t[0] == 45;
    match ReadNat(if negative then t[1..] else t)
    case None => None
    case Some((n, rest)) => Some((DInt(if negative then 0 - n else n), rest))
  }

  /** Reads one value, told apart by its first code unit. */
  function ReadValue(t: Text): (r: Option<(Doc, Text)>)
    ensures r.Some? ==> |r.value.1| < |t|
    decreases |t|, 0
  {
    if t == [] then None
    else if t[0] == 110 then ReadLiteral(t, Ascii("null"), DNull)
    else if t[0] == 116 then ReadLiteral(t, Ascii("true"), DBool(true))
    else if t[0] == 102 then ReadLiteral(t, Ascii("false"), DBool(false))
    else if t[0] == QUOTE then
      match ReadString(t[1..])
      case None => None
      case Some((s, rest)) => Some((DStr(s), rest))
    else if t[0] == 91 then
      if |t| > 1 && t[1] == 93 then Some((DArr([]), t[2..]))
      else
        match ReadItems(t[1..])
        case None => None
        case Some((items, rest)) => Some((DArr(items), rest))
    else if t[0] == 123 then
      if |t| > 1 && t[1] == 125 then Some((DObj(map[]), t[2..]))
      else
        match ReadMembers(t[1..])
        case None => None
        case Some((members, rest)) => Some((DObj(members), rest))
    else ReadInt(t)
  }

  /** Reads a non-empty list of items up to its closing bracket. */
  function ReadItems(t: Text): (r: Option<(seq<Doc>, Text)>)
    ensures r.Some? ==> |r.value.1| < |t|
    decreases |t|, 1
  {
    match ReadValue(t)
    case None => None
    case Some((d, rest)) =>
      if rest == [] then None
      else if rest[0] == 93 then Some(([d], rest[1..]))
      else if rest[0] != COMMA then None
      else
        match ReadItems(rest[1..])
        case None => None
        case Some((ds, rest')) => Some(([d] + ds, rest'))
  }

  /** Reads a non-empty list of members up to its closing brace. */
  function ReadMembers(t: Text): (r: Option<(map<Text, Doc>, Text)>)
    ensures r.Some? ==> |r.value.1| < |t|
    decreases |t|, 1
  {
    if t == [] || t[0] != QUOTE then None
    else
      match ReadString(t[1..])
      case None => None
      case Some((key, rest)) =>
        if rest == [] || rest[0] != COLON then None
        else
          match ReadValue(rest[1..])
          case None => None
          case Some((d, rest')) =>
            if rest' == [] then None
            else if rest'[0] == 125 then Some((map[key := d], rest'[1..]))
            else if rest'[0] != COMMA then None
            else
              match ReadMembers(rest'[1..])
              case None => None
              case Some((members, rest'')) => Some((members[key := d], rest''))
  }
}
