/** How a delivery is hashed: as the canonical text of a record that names its hash domain. If the hash
    tells texts apart, it tells deliveries apart. */
module IntakeEncoding {
  import opened Options
  import opened Sorting
  import opened Text
  import opened CanonicalJson
  import opened CanonicalJsonProofs
  import L = IntakeLedger
  import R = IntakeReceipts

  /** The member names of a delivery in the order of the program's record, and the other fixed texts. */
  datatype Names = Names(delivery: seq<Text>, domainKey: Text, valueKey: Text, deliveryDomain: Text,
                         deliverySchema: Text, scope: L.Scope -> Text)
  {
    ghost predicate Sound() {
      && |delivery| == 13 && Distinct(delivery)
      && domainKey != valueKey
      && forall s, t :: scope(s) == scope(t) ==> s == t
    }
  }

  function Record(keys: seq<Text>, values: seq<Json>): Json
    requires |keys| == |values|
  {
    Obj(seq(|keys|, i requires 0 <= i < |keys| => Field(keys[i], values[i])))
  }

  function Nullable(t: Option<Text>): Json {
    match t
    case None => Null
    case Some(s) => Str(s)
  }

  function DeliveryValues(n: Names, d: L.Delivery): (values: seq<Json>)
    ensures |values| == 13
  {
    [Str(n.deliverySchema), Str(d.identity.ledgerId), Str(d.identity.tenantId), Str(d.identity.repositoryId),
     Str(d.identity.contributionId), Str(d.deliveryId), Str(d.headDigest), Nullable(d.ancestorDigest),
     Str(d.identity.actorId), Str(d.identity.authorityEvidenceId), Str(n.scope(d.identity.authorityScope)),
     Str(d.payloadDigest), Int(d.receivedAtMs)]
  }

  function DeliveryRecord(n: Names, d: L.Delivery): Json
    requires |n.delivery| == 13
  {
    Record(n.delivery, DeliveryValues(n, d))
  }

  function InDomain(n: Names, domain: Text, value: Json): Json {
    Record([n.domainKey, n.valueKey], [Str(domain), value])
  }

  /** The text that is hashed for a delivery. */
  function DeliveryText(n: Names, d: L.Delivery): Text
    requires |n.delivery| == 13
  {
    Print(InDomain(n, n.deliveryDomain, DeliveryRecord(n, d)))
  }

  /** Records with the same keys mean the same only if their members do, one by one. */
  lemma RecordInjective(keys: seq<Text>, a: seq<Json>, b: seq<Json>, i: nat)
    requires |keys| == |a| == |b| && Distinct(keys) && i < |keys|
    requires Meaning(Record(keys, a)) == Meaning(Record(keys, b))
    ensures Meaning(a[i]) == Meaning(b[i])
  {
    MemberOfRecord(keys, a, i);
    MemberOfRecord(keys, b, i);
  }

  lemma MemberOfRecord(keys: seq<Text>, values: seq<Json>, i: nat)
    requires |keys| == |values| && Distinct(keys) && i < |keys|
    ensures var m := Meaning(Record(keys, values)); m.DObj? && keys[i] in m.members && m.members[keys[i]] == Meaning(values[i])
  {
    var fields := Record(keys, values).fields;
    PrintObject(fields);
    MembersOfContents(FieldDocs(fields));
    assert FieldDocs(fields)[i] == (keys[i], Meaning(values[i]));
  }

  lemma RecordIsPlain(keys: seq<Text>, values: seq<Json>)
    requires |keys| == |values| && Distinct(keys)
    requires forall i | 0 <= i < |values| :: KeysDistinct(values[i]) && Supported(values[i])
    ensures KeysDistinct(Record(keys, values)) && Supported(Record(keys, values))
  {}

  lemma DeliveryIsPlain(n: Names, d: L.Delivery)
    requires n.Sound()
    ensures var v := InDomain(n, n.deliveryDomain, DeliveryRecord(n, d)); KeysDistinct(v) && Supported(v)
  {
    RecordIsPlain(n.delivery, DeliveryValues(n, d));
    RecordIsPlain([n.domainKey, n.valueKey], [Str(n.deliveryDomain), DeliveryRecord(n, d)]);
  }

  lemma SameTextSameRecord(n: Names, a: L.Delivery, b: L.Delivery)
    requires n.Sound() && DeliveryText(n, a) == DeliveryText(n, b)
    ensures Meaning(DeliveryRecord(n, a)) == Meaning(DeliveryRecord(n, b))
  {
    var v, w := InDomain(n, n.deliveryDomain, DeliveryRecord(n, a)), InDomain(n, n.deliveryDomain, DeliveryRecord(n, b));
    DeliveryIsPlain(n, a);
    DeliveryIsPlain(n, b);
    CanonicalTextDecidesMeaning(v, w);
    RecordInjective([n.domainKey, n.valueKey], [Str(n.deliveryDomain), DeliveryRecord(n, a)],
                    [Str(n.deliveryDomain), DeliveryRecord(n, b)], 1);
  }

  predicate Leaf(v: Json) {
    v.Str? || v.Int? || v.Null?
  }

  lemma SameLeaf(v: Json, w: Json)
    requires Leaf(v) && Leaf(w) && Meaning(v) == Meaning(w)
    ensures v == w
  {}

  lemma ValuesInjective(n: Names, a: L.Delivery, b: L.Delivery)
    requires n.Sound() && a.schemaVersion == b.schemaVersion && DeliveryValues(n, a) == DeliveryValues(n, b)
    ensures a == b
  {
    var v, w := DeliveryValues(n, a), DeliveryValues(n, b);
    assert v[1] == w[1] && v[2] == w[2] && v[3] == w[3] && v[4] == w[4] && v[5] == w[5] && v[6] == w[6];
    assert v[7] == w[7] && v[8] == w[8] && v[9] == w[9] && v[10] == w[10] && v[11] == w[11] && v[12] == w[12];
    assert a.identity == b.identity;
  }

  /** The hashed text determines the delivery. */
  lemma DeliveryTextInjective(n: Names, a: L.Delivery, b: L.Delivery)
    requires n.Sound() && a.schemaVersion == b.schemaVersion && DeliveryText(n, a) == DeliveryText(n, b)
    ensures a == b
  {
    var v, w := DeliveryValues(n, a), DeliveryValues(n, b);
    SameTextSameRecord(n, a, b);
    forall i | 0 <= i < 13 ensures v[i] == w[i] {
      RecordInjective(n.delivery, v, w, i);
      SameLeaf(v[i], w[i]);
    }
    ValuesInjective(n, a, b);
  }

  /** Under an injective hash of canonical texts the ledger's deliveries are told apart, which is all that
      its receipts need. */
  lemma InjectiveHashTellsDeliveries(env: L.Env, n: Names, hash: Text -> Text)
    requires n.Sound() && forall x, y :: hash(x) == hash(y) ==> x == y
    requires forall d | env.ValidDelivery(d) :: env.sha(L.DeliveryMaterial(d)) == hash(DeliveryText(n, d))
    ensures R.DeliveriesTold(env)
  {
    forall a, b | env.ValidDelivery(a) && env.ValidDelivery(b) && R.DigestOf(env, a) == R.DigestOf(env, b) ensures a == b {
      DeliveryTextInjective(n, a, b);
    }
  }
}
