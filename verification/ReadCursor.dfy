/** The page cursors of the read connectors: a prefix, sixteen hexadecimal digits of the source digest,
    the entity and a decimal offset, joined by colons. */
module ReadCursor {
  import opened Options
  import opened Text

  datatype Connector = CRM | ERP

  datatype Entity = ACCOUNTS | OPPORTUNITIES | CUSTOMERS | ORDERS | INVOICES

  datatype Cursor = Cursor(tag: Text, entity: Entity, offset: nat)

  const TAG_LENGTH := 16

  function Entities(k: Connector): seq<Entity> {
    match k
    case CRM => [ACCOUNTS, OPPORTUNITIES]
    case ERP => [CUSTOMERS, ORDERS, INVOICES]
  }

  function Prefix(k: Connector): Text {
    match k
    case CRM => Ascii("crm1:")
    case ERP => Ascii("erp1:")
  }

  /** The name of an entity, with the colon that ends it. */
  function Label(e: Entity): (t: Text)
    ensures t != []
    ensures t[0] == match e
                    case ACCOUNTS => 97
                    case OPPORTUNITIES => 111
                    case CUSTOMERS => 99
                    case ORDERS => 111
                    case INVOICES => 105
  {
    match e
    case ACCOUNTS => Ascii("accounts:")
    case OPPORTUNITIES => Ascii("opportunities:")
    case CUSTOMERS => Ascii("customers:")
    case ORDERS => Ascii("orders:")
    case INVOICES => Ascii("invoices:")
  }

  predicate IsHexUnit(u: CodeUnit) {
    48 <= u <= 57 || 97 <= u <= 102
  }

  predicate IsTag(t: Text) {
    |t| == TAG_LENGTH && forall i | 0 <= i < |t| :: IsHexUnit(t[i])
  }

  predicate IsNumeral(t: Text) {
    t != [] && forall i | 0 <= i < |t| :: IsDigitUnit(t[i])
  }

  /** The cursor text, with any spelling of the offset. */
  function Spell(k: Connector, tag: Text, e: Entity, digits: Text): Text {
    Prefix(k) + (tag + ([58] + (Label(e) + digits)))
  }

  /** The cursor text the adapters themselves give out. */
  function PrintCursor(k: Connector, c: Cursor): Text {
    Spell(k, c.tag, c.entity, PrintNat(c.offset))
  }

  /** What follows a prefix, if it is there. */
  function Strip(prefix: Text, t: Text): Option<Text> {
    if prefix <= t then Some(t[|prefix|..]) else None
  }

  function ParseEntity(es: seq<Entity>, tag: Text, rest: Text): Option<Cursor> {
    if es == [] then None
    else
      match Strip(Label(es[0]), rest)
      case Some(digits) => if IsNumeral(digits) then Some(Cursor(tag, es[0], NatOf(digits))) else None
      case None => ParseEntity(es[1..], tag, rest)
  }

  function ParseTag(k: Connector, t: Text): Option<Cursor> {
    if |t| <= TAG_LENGTH || !IsTag(t[..TAG_LENGTH]) || t[TAG_LENGTH] != 58 then None
    else ParseEntity(Entities(k), t[..TAG_LENGTH], t[TAG_LENGTH + 1..])
  }

  function ParseCursor(k: Connector, t: Text): Option<Cursor> {
    match Strip(Prefix(k), t)
    case None => None
    case Some(rest) => ParseTag(k, rest)
  }

  lemma StripIsUnprefix(prefix: Text, t: Text, rest: Text)
    ensures Strip(prefix, t) == Some(rest) <==> t == prefix + rest
  {
    if prefix <= t {
      assert t == prefix + t[|prefix|..];
    }
    assert (prefix + rest)[|prefix|..] == rest;
  }

  lemma LabelsDiffer(e: Entity, f: Entity, rest: Text)
    requires Label(e)[0] != Label(f)[0]
    ensures Strip(Label(f), Label(e) + rest).None?
  {
    assert (Label(e) + rest)[0] == Label(e)[0];
  }

  /** Different entities of a list have names that start differently. */
  predicate Distinguishable(es: seq<Entity>) {
    forall i, j | 0 <= i < j < |es| :: Label(es[i])[0] != Label(es[j])[0]
  }

  lemma {:induction false} ParseEntityReads(es: seq<Entity>, tag: Text, e: Entity, digits: Text)
    requires Distinguishable(es) && e in es && IsNumeral(digits)
    ensures ParseEntity(es, tag, Label(e) + digits) == Some(Cursor(tag, e, NatOf(digits)))
  {
    if es[0] == e {
      StripIsUnprefix(Label(e), Label(e) + digits, digits);
    } else {
      assert Label(es[0])[0] != Label(e)[0];
      LabelsDiffer(e, es[0], digits);
      ParseEntityReads(es[1..], tag, e, digits);
    }
  }

  lemma {:induction false} ParseEntitySound(es: seq<Entity>, tag: Text, rest: Text) returns (digits: Text)
    requires ParseEntity(es, tag, rest).Some?
    ensures var c := ParseEntity(es, tag, rest).value;
      c.tag == tag && c.entity in es && IsNumeral(digits) && c.offset == NatOf(digits) && rest == Label(c.entity) + digits
  {
    match Strip(Label(es[0]), rest)
    case Some(d) =>
      StripIsUnprefix(Label(es[0]), rest, d);
      digits := d;
    case None => digits := ParseEntitySound(es[1..], tag, rest);
  }

  lemma CutAtColon(rest: Text, n: nat)
    requires n < |rest| && rest[n] == 58
    ensures rest == rest[..n] + ([58] + rest[n + 1..])
  {}

  lemma JoinAtColon(tag: Text, tail: Text)
    ensures var rest := tag + ([58] + tail);
      rest[..|tag|] == tag && rest[|tag|] == 58 && rest[|tag| + 1..] == tail
  {}

  lemma ParseTagReads(k: Connector, tag: Text, tail: Text)
    requires IsTag(tag)
    ensures ParseTag(k, tag + ([58] + tail)) == ParseEntity(Entities(k), tag, tail)
  {
    JoinAtColon(tag, tail);
  }

  /** Every spelling of a cursor is read as that cursor. */
  lemma ParseReadsSpelling(k: Connector, tag: Text, e: Entity, digits: Text)
    requires IsTag(tag) && e in Entities(k) && IsNumeral(digits)
    ensures ParseCursor(k, Spell(k, tag, e, digits)) == Some(Cursor(tag, e, NatOf(digits)))
  {
    var tail := Label(e) + digits;
    StripIsUnprefix(Prefix(k), Spell(k, tag, e, digits), tag + ([58] + tail));
    ParseTagReads(k, tag, tail);
    EntitiesDiffer(k);
    ParseEntityReads(Entities(k), tag, e, digits);
  }

  lemma EntitiesDiffer(k: Connector)
    ensures Distinguishable(Entities(k))
  {}

  /** Whatever is read as a cursor is one of its spellings. */
  lemma ParseIsSound(k: Connector, t: Text) returns (digits: Text)
    requires ParseCursor(k, t).Some?
    ensures var c := ParseCursor(k, t).value;
      && IsTag(c.tag) && c.entity in Entities(k) && IsNumeral(digits) && c.offset == NatOf(digits)
      && t == Spell(k, c.tag, c.entity, digits)
  {
    var rest := Strip(Prefix(k), t).value;
    StripIsUnprefix(Prefix(k), t, rest);
    digits := ParseEntitySound(Entities(k), rest[..TAG_LENGTH], rest[TAG_LENGTH + 1..]);
    CutAtColon(rest, TAG_LENGTH);
  }

  /** The adapters read back the cursors they gave out. */
  lemma CursorRoundTrip(k: Connector, c: Cursor)
    requires IsTag(c.tag) && c.entity in Entities(k)
    ensures ParseCursor(k, PrintCursor(k, c)) == Some(c)
  {
    PrintNatRoundTrip(c.offset);
    ParseReadsSpelling(k, c.tag, c.entity, PrintNat(c.offset));
  }

  /** A leading zero gives another text of the same cursor. */
  lemma LeadingZero(k: Connector, c: Cursor)
    requires IsTag(c.tag) && c.entity in Entities(k)
    ensures var other := Spell(k, c.tag, c.entity, [48] + PrintNat(c.offset));
      ParseCursor(k, other) == Some(c) && other != PrintCursor(k, c)
  {
    var digits := [48] + PrintNat(c.offset);
    ZeroIsNothing(PrintNat(c.offset));
    PrintNatRoundTrip(c.offset);
    ParseReadsSpelling(k, c.tag, c.entity, digits);
    assert |Spell(k, c.tag, c.entity, digits)| == |PrintCursor(k, c)| + 1;
  }

  lemma {:induction false} ZeroIsNothing(digits: Text)
    requires forall i | 0 <= i < |digits| :: IsDigitUnit(digits[i])
    ensures NatOf([48] + digits) == NatOf(digits)
  {
    var all := [48] + digits;
    if digits == [] {
      assert all[..0] == [];
    } else {
      assert all[..|all| - 1] == [48] + digits[..|digits| - 1];
      assert all[|all| - 1] == digits[|digits| - 1];
      ZeroIsNothing(digits[..|digits| - 1]);
    }
  }
}
