/** The contribution intake ledger: deliveries are classified, appended to a hash-chained history
    and receipted. Everything a reader asks of the ledger is derived from that history.

    Hashing and the regular expressions of identifiers and digests are parameters (Env); module
    IntakeEncoding says which text is hashed for a delivery. Nothing here assumes the hash injective. */
module IntakeLedger {
  import opened Numbers
  import opened Options
  import opened Text

  datatype Scope = READ | TRIAGE | WRITE | ADMIN

  datatype Disposition = APPENDED | SEMANTIC_DUPLICATE | TRANSPORT_DUPLICATE | STALE | REJECTED

  datatype Reason =
    | NEW_CONTRIBUTION
    | PR_HEAD_SUPERSESSION
    | PR_HEAD_FORCE_PUSH
    | UNKNOWN_ANCESTOR
    | TRANSPORT_REDELIVERY
    | DELIVERY_ID_REUSE_TAMPER
    | HEAD_ALREADY_CURRENT
    | SUPERSEDED_HEAD_REPLAY
    | INVALIDATED_HEAD_REPLAY
    | TRUST_CONTEXT_MISMATCH
    | AUTHORITY_WIDENING
    | AUTHORITY_CHANGE
    | STALE_HEAD_TIMESTAMP

  datatype Binding = CONTEXT_MATCH | SCOPE_MISMATCH | WIDENED | CHANGED

  datatype HeadStatus = CURRENT | SUPERSEDED | INVALIDATED | UNKNOWN

  datatype Schema = DELIVERY_V1 | EVIDENCE_V1 | LEDGER_V1 | RECEIPT_V1 | OTHER_SCHEMA(name: Text)

  datatype Denial = CONTEXT_DENIED | DELIVERY_DENIED | LEDGER_NOT_VERIFIED

  /** The identity under which a contribution is delivered. */
  datatype Identity = Identity(ledgerId: Text, tenantId: Text, repositoryId: Text, contributionId: Text,
                               actorId: Text, authorityEvidenceId: Text, authorityScope: Scope)

  datatype Context = Context(identity: Identity, contextDigest: Text)

  datatype Delivery = Delivery(schemaVersion: Schema, identity: Identity, deliveryId: Text, headDigest: Text,
                               ancestorDigest: Option<Text>, payloadDigest: Text, receivedAtMs: int)

  /** Submitted identity, kept as non-authoritative evidence. */
  datatype Evidence = Evidence(schemaVersion: Schema, authoritative: bool, identity: Identity)

  datatype Classification = Classification(disposition: Disposition, reasons: seq<Reason>,
                                           quarantined: bool, replacedHead: Option<Text>)

  /** An entry without its digest. */
  datatype EntryCore = EntryCore(
    sequence: int, schemaVersion: Schema, contextDigest: Text, evidence: Evidence, evidenceDigest: Text,
    binding: Binding, classification: Classification, identity: Identity, deliveryId: Text,
    headDigest: Text, ancestorDigest: Option<Text>, payloadDigest: Text, receivedAtMs: int,
    deliveryDigest: Text, previousEntryDigest: Option<Text>)

  datatype Entry = Entry(core: EntryCore, entryDigest: Text)

  datatype LedgerCore = LedgerCore(schemaVersion: Schema, identity: Identity, contextDigest: Text,
                                   entries: seq<Entry>, nextSequence: int, quarantineCount: int)

  datatype Ledger = Ledger(core: LedgerCore, ledgerDigest: Text)

  datatype ReceiptCore = ReceiptCore(
    schemaVersion: Schema, contextDigest: Text, evidence: Evidence, evidenceDigest: Text, binding: Binding,
    identity: Identity, deliveryId: Text, headDigest: Text, sequence: int, disposition: Disposition,
    reasons: seq<Reason>, quarantined: bool, deliveryDigest: Text)

  datatype Receipt = Receipt(core: ReceiptCore, receiptDigest: Text)

  /** What gets hashed, one case for each hash domain. */
  datatype Material =
    | ContextMaterial(identity: Identity)
    | EvidenceMaterial(evidence: Evidence)
    | DeliveryMaterial(delivery: Delivery)
    | EntryMaterial(entry: EntryCore)
    | LedgerMaterial(schemaVersion: Schema, identity: Identity, contextDigest: Text,
                     entryDigests: seq<Text>, nextSequence: int, quarantineCount: int)
    | ReceiptMaterial(receipt: ReceiptCore)

  /** The hash of each domain and the shape tests applied to what comes from outside. */
  datatype Env = Env(sha: Material -> Text, validIdentity: Identity -> bool, validDeliveryId: Text -> bool,
                     validDigest: Text -> bool)
  {
    ghost predicate Sound() {
      forall m :: validDigest(sha(m))
    }

    predicate NullableDigest(t: Option<Text>) {
      t.Some? ==> validDigest(t.value)
    }

    predicate ValidDelivery(d: Delivery) {
      && d.schemaVersion == DELIVERY_V1
      && validIdentity(d.identity)
      && validDeliveryId(d.deliveryId)
      && validDigest(d.headDigest)
      && NullableDigest(d.ancestorDigest)
      && validDigest(d.payloadDigest)
      && IsSafeUnsigned(d.receivedAtMs)
    }

    predicate ValidEvidence(e: Evidence) {
      e.schemaVersion == EVIDENCE_V1 && !e.authoritative && validIdentity(e.identity)
    }

    /** The shape an entry read back from outside must have. */
    predicate WellFormedEntry(e: Entry) {
      && e.core.schemaVersion == LEDGER_V1
      && ValidEvidence(e.core.evidence)
      && IsSafePositive(e.core.sequence)
      && validDigest(e.core.contextDigest)
      && validDigest(e.core.evidenceDigest)
      && e.core.classification.disposition != TRANSPORT_DUPLICATE
      && ValidReasons(e.core.classification.reasons)
      && validIdentity(e.core.identity)
      && validDeliveryId(e.core.deliveryId)
      && validDigest(e.core.headDigest)
      && NullableDigest(e.core.ancestorDigest)
      && validDigest(e.core.payloadDigest)
      && IsSafeUnsigned(e.core.receivedAtMs)
      && validDigest(e.core.deliveryDigest)
      && NullableDigest(e.core.classification.replacedHead)
      && NullableDigest(e.core.previousEntryDigest)
      && validDigest(e.entryDigest)
    }

    predicate WellFormedReceipt(r: Receipt) {
      && r.core.schemaVersion == RECEIPT_V1
      && ValidEvidence(r.core.evidence)
      && validDigest(r.core.contextDigest)
      && validDigest(r.core.evidenceDigest)
      && validIdentity(r.core.identity)
      && validDeliveryId(r.core.deliveryId)
      && validDigest(r.core.headDigest)
      && IsSafePositive(r.core.sequence)
      && ValidReasons(r.core.reasons)
      && validDigest(r.core.deliveryDigest)
      && validDigest(r.receiptDigest)
    }
  }

  predicate IsSafeUnsigned(n: int) {
    0 <= n <= MAX_SAFE_INTEGER
  }

  predicate IsSafePositive(n: int) {
    1 <= n <= MAX_SAFE_INTEGER
  }

  predicate ValidReasons(reasons: seq<Reason>) {
    1 <= |reasons| <= 13 && forall i, j | 0 <= i < j < |reasons| :: reasons[i] != reasons[j]
  }

  // ---------------------------------------------------------------- trust context

  function BindContext(env: Env, identity: Identity): Result<Context, Denial> {
    if env.validIdentity(identity) then Ok(Context(identity, env.sha(ContextMaterial(identity))))
    else Err(CONTEXT_DENIED)
  }

  /** A context the library itself has bound. */
  predicate BoundContext(env: Env, ctx: Context) {
    BindContext(env, ctx.identity) == Ok(ctx)
  }

  // ---------------------------------------------------------------- history

  function Appended(entries: seq<Entry>): seq<Entry> {
    if entries == [] then []
    else
      var front := Appended(entries[..|entries| - 1]);
      var last := entries[|entries| - 1];
      if last.core.classification.disposition == APPENDED then front + [last] else front
  }

  /** The last appended entry. */
  function CurrentHead(entries: seq<Entry>): Option<Entry> {
    var heads := Appended(entries);
    if heads == [] then None else Some(heads[|heads| - 1])
  }

  method CurrentHeadInternal(entries: seq<Entry>) returns (r: Option<Entry>)
    ensures r == CurrentHead(entries)
  {
    var index := |entries|;
    assert entries[..index] == entries;
    while index > 0
      invariant 0 <= index <= |entries|
      invariant CurrentHead(entries[..index]) == CurrentHead(entries)
    {
      index := index - 1;
      assert entries[..index + 1][..index] == entries[..index];
      if entries[index].core.classification.disposition == APPENDED {
        return Some(entries[index]);
      }
    }
    return None;
  }

  function FirstDisplacer(heads: seq<Entry>, head: Text): (r: Option<Entry>)
    ensures r.Some? ==> r.value in heads && r.value.core.classification.replacedHead == Some(head)
    ensures r.None? ==> forall e | e in heads :: e.core.classification.replacedHead != Some(head)
  {
    if heads == [] then None
    else if heads[0].core.classification.replacedHead == Some(head) then Some(heads[0])
    else FirstDisplacer(heads[1..], head)
  }

  function StatusOf(entries: seq<Entry>, head: Text): HeadStatus {
    var heads := Appended(entries);
    if heads == [] then UNKNOWN
    else if heads[|heads| - 1].core.headDigest == head then CURRENT
    else
      match FirstDisplacer(heads, head)
      case None => UNKNOWN
      case Some(displacer) =>
        if PR_HEAD_SUPERSESSION in displacer.core.classification.reasons then SUPERSEDED else INVALIDATED
  }

  // ---------------------------------------------------------------- classification

  function Rank(s: Scope): nat {
    match s
    case READ => 0
    case TRIAGE => 1
    case WRITE => 2
    case ADMIN => 3
  }

  function DeriveBinding(trusted: Identity, submitted: Identity): Binding {
    if submitted.ledgerId != trusted.ledgerId || submitted.tenantId != trusted.tenantId
      || submitted.repositoryId != trusted.repositoryId || submitted.contributionId != trusted.contributionId
    then SCOPE_MISMATCH
    else if Rank(submitted.authorityScope) > Rank(trusted.authorityScope) then WIDENED
    else if submitted.actorId != trusted.actorId || submitted.authorityEvidenceId != trusted.authorityEvidenceId
      || submitted.authorityScope != trusted.authorityScope
    then CHANGED
    else CONTEXT_MATCH
  }

  predicate Redelivered(entries: seq<Entry>, event: Delivery, digest: Text) {
    exists i | 0 <= i < |entries| ::
      entries[i].core.deliveryId == event.deliveryId && entries[i].core.deliveryDigest == digest
  }

  predicate DeliveryIdUsed(entries: seq<Entry>, deliveryId: Text) {
    exists i | 0 <= i < |entries| :: entries[i].core.deliveryId == deliveryId
  }

  predicate WasAppended(entries: seq<Entry>, head: Text) {
    exists i | 0 <= i < |entries| ::
      entries[i].core.classification.disposition == APPENDED && entries[i].core.headDigest == head
  }

  function Quarantine(disposition: Disposition, reason: Reason): Classification {
    Classification(disposition, [reason], true, None)
  }

  function Classify(entries: seq<Entry>, event: Delivery, binding: Binding, digest: Text): Classification {
    if Redelivered(entries, event, digest) then
      Classification(TRANSPORT_DUPLICATE, [TRANSPORT_REDELIVERY], false, None)
    else if DeliveryIdUsed(entries, event.deliveryId) then Quarantine(REJECTED, DELIVERY_ID_REUSE_TAMPER)
    else if binding == SCOPE_MISMATCH then Quarantine(REJECTED, TRUST_CONTEXT_MISMATCH)
    else if binding == WIDENED then Quarantine(REJECTED, AUTHORITY_WIDENING)
    else if binding == CHANGED then Quarantine(REJECTED, AUTHORITY_CHANGE)
    else ClassifyHead(entries, event)
  }

  /** Classification of a delivery that is new and carries the trusted identity. */
  function ClassifyHead(entries: seq<Entry>, event: Delivery): Classification {
    match CurrentHead(entries)
    case None => Classification(APPENDED, [NEW_CONTRIBUTION], false, None)
    case Some(current) =>
      var currentHead := current.core.headDigest;
      if event.headDigest == currentHead then
        Classification(SEMANTIC_DUPLICATE, [HEAD_ALREADY_CURRENT], false, None)
      else if WasAppended(entries, event.headDigest) then
        Quarantine(STALE, if StatusOf(entries, event.headDigest) == INVALIDATED
                          then INVALIDATED_HEAD_REPLAY else SUPERSEDED_HEAD_REPLAY)
      else if event.receivedAtMs < current.core.receivedAtMs then Quarantine(STALE, STALE_HEAD_TIMESTAMP)
      else if event.ancestorDigest == Some(currentHead) then
        Classification(APPENDED, [PR_HEAD_SUPERSESSION], false, Some(currentHead))
      else if event.ancestorDigest == None then
        Classification(APPENDED, [PR_HEAD_FORCE_PUSH, UNKNOWN_ANCESTOR], false, Some(currentHead))
      else Classification(APPENDED, [PR_HEAD_FORCE_PUSH], false, Some(currentHead))
  }

  // ---------------------------------------------------------------- entries and receipts

  function EvidenceOf(event: Delivery): Evidence {
    Evidence(EVIDENCE_V1, false, event.identity)
  }

  function LastEntryDigest(entries: seq<Entry>): Option<Text> {
    if entries == [] then None else Some(entries[|entries| - 1].entryDigest)
  }

  function BuildEntry(env: Env, ledger: LedgerCore, event: Delivery, classification: Classification,
                      binding: Binding, digest: Text): Entry
  {
    var core := EntryCore(
      ledger.nextSequence, LEDGER_V1, ledger.contextDigest, EvidenceOf(event),
      env.sha(EvidenceMaterial(EvidenceOf(event))), binding, classification, ledger.identity, event.deliveryId,
      event.headDigest, event.ancestorDigest, event.payloadDigest, event.receivedAtMs, digest,
      LastEntryDigest(ledger.entries));
    Entry(core, env.sha(EntryMaterial(core)))
  }

  /** The delivery an entry was made from, read back out of it. */
  function SubmittedEvent(entry: Entry): Delivery {
    Delivery(DELIVERY_V1, entry.core.evidence.identity, entry.core.deliveryId, entry.core.headDigest,
             entry.core.ancestorDigest, entry.core.payloadDigest, entry.core.receivedAtMs)
  }

  function BuildReceipt(env: Env, ctx: Context, event: Delivery, sequence: int,
                        classification: Classification, binding: Binding, digest: Text): Receipt
  {
    var core := ReceiptCore(
      RECEIPT_V1, ctx.contextDigest, EvidenceOf(event), env.sha(EvidenceMaterial(EvidenceOf(event))), binding,
      ctx.identity, event.deliveryId, event.headDigest, sequence, classification.disposition,
      classification.reasons, classification.quarantined, digest);
    Receipt(core, env.sha(ReceiptMaterial(core)))
  }

  // ---------------------------------------------------------------- ledger

  function LedgerDigestValue(env: Env, core: LedgerCore): Text {
    env.sha(LedgerMaterial(core.schemaVersion, core.identity, core.contextDigest,
                       seq(|core.entries|, i requires 0 <= i < |core.entries| => core.entries[i].entryDigest),
                       core.nextSequence, core.quarantineCount))
  }

  function SealLedger(env: Env, core: LedgerCore): Ledger {
    Ledger(core, LedgerDigestValue(env, core))
  }

  function CreateLedger(env: Env, ctx: Context): Ledger {
    SealLedger(env, LedgerCore(LEDGER_V1, ctx.identity, ctx.contextDigest, [], 1, 0))
  }

  function FindRedelivered(entries: seq<Entry>, event: Delivery, digest: Text): (e: Entry)
    requires Redelivered(entries, event, digest)
    ensures e in entries && e.core.deliveryId == event.deliveryId && e.core.deliveryDigest == digest
  {
    if entries[0].core.deliveryId == event.deliveryId && entries[0].core.deliveryDigest == digest then entries[0]
    else FindRedelivered(entries[1..], event, digest)
  }

  /** Ingests one well-formed delivery. */
  function IngestEvent(env: Env, ctx: Context, ledger: Ledger, event: Delivery): (Ledger, Receipt) {
    var base := ledger.core;
    var binding := DeriveBinding(base.identity, event.identity);
    var digest := env.sha(DeliveryMaterial(event));
    var classification := Classify(base.entries, event, binding, digest);
    if Redelivered(base.entries, event, digest) then
      var prior := FindRedelivered(base.entries, event, digest);
      (ledger, BuildReceipt(env, ctx, event, prior.core.sequence, classification, binding, digest))
    else
      var entry := BuildEntry(env, base, event, classification, binding, digest);
      var core := base.(schemaVersion := LEDGER_V1, entries := base.entries + [entry],
                       nextSequence := base.nextSequence + 1,
                       quarantineCount := base.quarantineCount + if classification.quarantined then 1 else 0);
      (SealLedger(env, core), BuildReceipt(env, ctx, event, entry.core.sequence, classification, binding, digest))
  }

  predicate InContext(ctx: Context, ledger: Ledger) {
    ledger.core.contextDigest == ctx.contextDigest && ledger.core.identity == ctx.identity
  }

  function IngestDelivery(env: Env, ctx: Context, ledger: Ledger, candidate: Delivery):
    Result<(Ledger, Receipt), Denial>
  {
    if !InContext(ctx, ledger) then Err(LEDGER_NOT_VERIFIED)
    else if !env.ValidDelivery(candidate) then Err(DELIVERY_DENIED)
    else Ok(IngestEvent(env, ctx, ledger, candidate))
  }

  // ---------------------------------------------------------------- runs

  predicate ValidStream(env: Env, stream: seq<Delivery>) {
    forall i | 0 <= i < |stream| :: env.ValidDelivery(stream[i])
  }

  /** The ledger after a stream of deliveries, from genesis. */
  function LedgerAfter(env: Env, ctx: Context, stream: seq<Delivery>): Ledger {
    if stream == [] then CreateLedger(env, ctx)
    else IngestEvent(env, ctx, LedgerAfter(env, ctx, stream[..|stream| - 1]), stream[|stream| - 1]).0
  }

  /** The receipt issued for the k-th delivery of a stream. */
  function ReceiptAt(env: Env, ctx: Context, stream: seq<Delivery>, k: nat): Receipt
    requires k < |stream|
  {
    IngestEvent(env, ctx, LedgerAfter(env, ctx, stream[..k]), stream[k]).1
  }

  ghost predicate Reachable(env: Env, ctx: Context, ledger: Ledger) {
    exists stream :: ValidStream(env, stream) && LedgerAfter(env, ctx, stream) == ledger
  }
}
