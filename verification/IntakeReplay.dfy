/** Replaying deliveries and verifying a ledger handed in from outside: the verifier accepts
    exactly the ledgers that some stream of deliveries builds. */
module IntakeReplay {
  import opened Numbers
  import opened Options
  import opened Sequences
  import opened Text
  import opened IntakeLedger
  import opened EventLog

  function QuarantineCount(entries: seq<Entry>): (n: nat)
    ensures n <= |entries|
  {
    if entries == [] then 0
    else QuarantineCount(entries[..|entries| - 1])
         + if entries[|entries| - 1].core.classification.quarantined then 1 else 0
  }

  lemma QuarantineCountPush(entries: seq<Entry>, entry: Entry)
    ensures QuarantineCount(entries + [entry])
         == QuarantineCount(entries) + if entry.core.classification.quarantined then 1 else 0
  {
    TakeFront(entries, entry);
  }

  // ---------------------------------------------------------------- the ledger as an event log

  /** The one ledger of a context that holds the given entries. */
  function CoreOf(ctx: Context, entries: seq<Entry>): LedgerCore {
    LedgerCore(LEDGER_V1, ctx.identity, ctx.contextDigest, entries, |entries| + 1, QuarantineCount(entries))
  }

  function LedgerOf(env: Env, ctx: Context, entries: seq<Entry>): Ledger {
    SealLedger(env, CoreOf(ctx, entries))
  }

  /** The entry a delivery turns into, unless it is a redelivery. */
  function NextEntry(env: Env, ctx: Context, entries: seq<Entry>, event: Delivery): Option<Entry> {
    var binding := DeriveBinding(ctx.identity, event.identity);
    var digest := env.sha(DeliveryMaterial(event));
    if Redelivered(entries, event, digest) then None
    else Some(BuildEntry(env, CoreOf(ctx, entries), event, Classify(entries, event, binding, digest), binding, digest))
  }

  function Step(env: Env, ctx: Context): (seq<Entry>, Delivery) -> Option<Entry> {
    (entries, event) => NextEntry(env, ctx, entries, event)
  }

  function ValidIn(env: Env): Delivery -> bool {
    event => env.ValidDelivery(event)
  }

  lemma StepReadsBack(env: Env, ctx: Context)
    ensures ReadsBack(Step(env, ctx), SubmittedEvent, ValidIn(env))
  {}

  lemma IngestIsPush(env: Env, ctx: Context, entries: seq<Entry>, event: Delivery)
    ensures IngestEvent(env, ctx, LedgerOf(env, ctx, entries), event).0
         == LedgerOf(env, ctx, Push(Step(env, ctx), entries, event))
  {
    var next := NextEntry(env, ctx, entries, event);
    assert Step(env, ctx)(entries, event) == next;
    if next.Some? {
      QuarantineCountPush(entries, next.value);
    }
  }

  /** A run of the ledger is the sealed run of its log. */
  lemma {:induction false} LedgerAfterIsRun(env: Env, ctx: Context, stream: seq<Delivery>)
    ensures LedgerAfter(env, ctx, stream) == LedgerOf(env, ctx, Run(Step(env, ctx), stream))
  {
    if stream != [] {
      var front := stream[..|stream| - 1];
      LedgerAfterIsRun(env, ctx, front);
      IngestIsPush(env, ctx, Run(Step(env, ctx), front), stream[|stream| - 1]);
    }
  }

  lemma ValidStreamIsAllValid(env: Env, stream: seq<Delivery>)
    ensures ValidStream(env, stream) <==> AllValid(ValidIn(env), stream)
  {
    assert forall i | 0 <= i < |stream| :: ValidIn(env)(stream[i]) == env.ValidDelivery(stream[i]);
  }

  ghost predicate LawfulLog(env: Env, ctx: Context, entries: seq<Entry>) {
    Lawful(Step(env, ctx), SubmittedEvent, ValidIn(env), entries)
  }

  /** A ledger is reachable exactly when it is the sealed form of a lawful log. */
  lemma ReachableIffLawful(env: Env, ctx: Context, ledger: Ledger)
    ensures Reachable(env, ctx, ledger)
       <==> ledger == LedgerOf(env, ctx, ledger.core.entries) && LawfulLog(env, ctx, ledger.core.entries)
  {
    var entries := ledger.core.entries;
    StepReadsBack(env, ctx);
    if Reachable(env, ctx, ledger) {
      var stream :| ValidStream(env, stream) && LedgerAfter(env, ctx, stream) == ledger;
      LedgerAfterIsRun(env, ctx, stream);
      ValidStreamIsAllValid(env, stream);
      RunIsLawful(Step(env, ctx), SubmittedEvent, ValidIn(env), stream);
    }
    if ledger == LedgerOf(env, ctx, entries) && LawfulLog(env, ctx, entries) {
      var events := Map(SubmittedEvent, entries);
      LawfulIsRun(Step(env, ctx), SubmittedEvent, ValidIn(env), entries);
      LedgerAfterIsRun(env, ctx, events);
      ValidStreamIsAllValid(env, events);
    }
  }

  /** Replaying the deliveries read back out of a reachable ledger's entries rebuilds that ledger. */
  lemma ReadBackRebuildsLedger(env: Env, ctx: Context, stream: seq<Delivery>)
    requires ValidStream(env, stream)
    ensures var ledger := LedgerAfter(env, ctx, stream);
      var events := Map(SubmittedEvent, ledger.core.entries);
      ValidStream(env, events) && LedgerAfter(env, ctx, events) == ledger
  {
    StepReadsBack(env, ctx);
    ValidStreamIsAllValid(env, stream);
    EventLog.ReadBackRebuilds(Step(env, ctx), SubmittedEvent, ValidIn(env), stream);
    LedgerAfterIsRun(env, ctx, stream);
    var events := Map(SubmittedEvent, Run(Step(env, ctx), stream));
    ValidStreamIsAllValid(env, events);
    LedgerAfterIsRun(env, ctx, events);
  }

  // ---------------------------------------------------------------- the verifier

  /** The verifier's test of one entry against the history replayed so far. */
  predicate EntryAccepted(env: Env, ctx: Context, replayed: seq<Entry>, previous: Option<Text>, entry: Entry) {
    && env.WellFormedEntry(entry)
    && var event := SubmittedEvent(entry);
       var binding := DeriveBinding(ctx.identity, event.identity);
       var digest := env.sha(DeliveryMaterial(event));
       var derived := Classify(replayed, event, binding, digest);
       var disposition := entry.core.classification.disposition;
    && entry.core.sequence == |replayed| + 1
    && entry.core.contextDigest == ctx.contextDigest
    && entry.core.identity == ctx.identity
    && entry.core.evidenceDigest == env.sha(EvidenceMaterial(entry.core.evidence))
    && entry.core.binding == binding
    && entry.core.deliveryDigest == digest
    && entry.core.previousEntryDigest == previous
    && entry.core.classification.quarantined == (disposition == STALE || disposition == REJECTED)
    && derived.disposition != TRANSPORT_DUPLICATE
    && entry.core.classification == derived
    && entry.entryDigest == env.sha(EntryMaterial(entry.core))
  }

  ghost predicate DigestsOk(env: Env, entries: seq<Entry>) {
    forall i | 0 <= i < |entries| ::
      env.validDigest(entries[i].core.headDigest) && env.validDigest(entries[i].entryDigest)
  }

  lemma {:induction false} AppendedAreEntries(entries: seq<Entry>)
    ensures forall e | e in Appended(entries) :: e in entries && e.core.classification.disposition == APPENDED
    ensures forall e | e in entries && e.core.classification.disposition == APPENDED :: e in Appended(entries)
  {
    if entries != [] {
      AppendedAreEntries(entries[..|entries| - 1]);
      SplitLast(entries);
    }
  }

  lemma ClassifyShape(env: Env, entries: seq<Entry>, event: Delivery, binding: Binding, digest: Text)
    requires DigestsOk(env, entries)
    ensures var c := Classify(entries, event, binding, digest);
      && c.quarantined == (c.disposition == STALE || c.disposition == REJECTED)
      && (c.disposition == TRANSPORT_DUPLICATE <==> Redelivered(entries, event, digest))
      && ValidReasons(c.reasons)
      && env.NullableDigest(c.replacedHead)
  {
    AppendedAreEntries(entries);
    assert CurrentHead(entries).Some? ==> CurrentHead(entries).value in Appended(entries);
  }

  /** The verifier's test passes exactly for the entry that ingesting the submitted event appends. */
  lemma AcceptedIffNext(env: Env, ctx: Context, entries: seq<Entry>, entry: Entry)
    requires env.Sound() && BoundContext(env, ctx) && DigestsOk(env, entries)
    requires |entries| < MAX_SAFE_INTEGER
    ensures EntryAccepted(env, ctx, entries, LastEntryDigest(entries), entry)
      <==> env.ValidDelivery(SubmittedEvent(entry)) && NextEntry(env, ctx, entries, SubmittedEvent(entry)) == Some(entry)
  {
    var event := SubmittedEvent(entry);
    ClassifyShape(env, entries, event, DeriveBinding(ctx.identity, event.identity), env.sha(DeliveryMaterial(event)));
  }

  lemma LawfulDigests(env: Env, ctx: Context, entries: seq<Entry>)
    requires env.Sound() && LawfulLog(env, ctx, entries)
    ensures DigestsOk(env, entries)
  {
    forall i | 0 <= i < |entries|
      ensures env.validDigest(entries[i].core.headDigest) && env.validDigest(entries[i].entryDigest)
    {
      assert LawfulAt(Step(env, ctx), SubmittedEvent, ValidIn(env), entries, i);
      assert NextEntry(env, ctx, entries[..i], SubmittedEvent(entries[i])) == Some(entries[i]);
      assert env.ValidDelivery(SubmittedEvent(entries[i]));
    }
  }

  /** In a lawful log every entry passes the verifier's test. */
  lemma LawfulEntryAccepted(env: Env, ctx: Context, entries: seq<Entry>, i: nat)
    requires env.Sound() && BoundContext(env, ctx) && LawfulLog(env, ctx, entries)
    requires i < |entries| < MAX_SAFE_INTEGER
    ensures EntryAccepted(env, ctx, entries[..i], LastEntryDigest(entries[..i]), entries[i])
  {
    LawfulDigests(env, ctx, entries);
    assert LawfulAt(Step(env, ctx), SubmittedEvent, ValidIn(env), entries, i);
    AcceptedIffNext(env, ctx, entries[..i], entries[i]);
  }

  lemma AcceptedExtends(env: Env, ctx: Context, replayed: seq<Entry>, entry: Entry)
    requires env.Sound() && BoundContext(env, ctx) && LawfulLog(env, ctx, replayed)
    requires EntryAccepted(env, ctx, replayed, LastEntryDigest(replayed), entry)
    ensures LawfulLog(env, ctx, replayed + [entry])
  {
    LawfulDigests(env, ctx, replayed);
    AcceptedIffNext(env, ctx, replayed, entry);
    LawfulPush(Step(env, ctx), SubmittedEvent, ValidIn(env), replayed, entry);
  }

  /** Structural and semantic replay of a candidate ledger from genesis. */
  method VerifyLedger(env: Env, ctx: Context, candidate: Ledger) returns (r: Option<Ledger>)
    requires env.Sound() && BoundContext(env, ctx)
    ensures r == if Reachable(env, ctx, candidate) && candidate.core.nextSequence <= MAX_SAFE_INTEGER
                 then Some(candidate) else None
  {
    var core := candidate.core;
    ReachableIffLawful(env, ctx, candidate);
    if core.schemaVersion != LEDGER_V1 || !env.validIdentity(core.identity)
      || core.identity != ctx.identity || core.contextDigest != ctx.contextDigest
    {
      return None;
    }
    var replayed: seq<Entry> := [];
    var replayNextSequence, replayQuarantineCount := 1, 0;
    var previous: Option<Text> := None;
    for index := 0 to |core.entries|
      invariant replayed == core.entries[..index]
      invariant replayNextSequence == index + 1
      invariant replayQuarantineCount == QuarantineCount(replayed)
      invariant previous == LastEntryDigest(replayed)
      invariant LawfulLog(env, ctx, replayed)
    {
      var entry := core.entries[index];
      if LawfulLog(env, ctx, core.entries) && |core.entries| < MAX_SAFE_INTEGER {
        LawfulEntryAccepted(env, ctx, core.entries, index);
      }
      if !EntryAccepted(env, ctx, replayed, previous, entry) {
        return None;
      }
      AcceptedExtends(env, ctx, replayed, entry);
      TakeNext(core.entries, index);
      QuarantineCountPush(replayed, entry);
      replayed := replayed + [entry];
      replayNextSequence := replayNextSequence + 1;
      if entry.core.classification.quarantined {
        replayQuarantineCount := replayQuarantineCount + 1;
      }
      previous := Some(entry.entryDigest);
    }
    TakeAll(core.entries);
    if !IsSafePositive(core.nextSequence) || !IsSafeUnsigned(core.quarantineCount)
      || !env.validDigest(candidate.ledgerDigest)
      || core.nextSequence != replayNextSequence || core.quarantineCount != replayQuarantineCount
    {
      return None;
    }
    var unsigned := LedgerCore(LEDGER_V1, ctx.identity, ctx.contextDigest, replayed,
                               core.nextSequence, core.quarantineCount);
    if candidate.ledgerDigest != LedgerDigestValue(env, unsigned) {
      return None;
    }
    return Some(SealLedger(env, unsigned));
  }

  lemma LedgerAfterNext(env: Env, ctx: Context, stream: seq<Delivery>, i: nat)
    requires i < |stream|
    ensures LedgerAfter(env, ctx, stream[..i + 1])
         == IngestEvent(env, ctx, LedgerAfter(env, ctx, stream[..i]), stream[i]).0
  {
    TakeNext(stream, i);
    TakeFront(stream[..i], stream[i]);
  }

  /** Ingesting into a reachable ledger is refused only for a malformed delivery, and leaves a reachable one. */
  lemma IngestKeepsReachable(env: Env, ctx: Context, ledger: Ledger, candidate: Delivery)
    requires Reachable(env, ctx, ledger)
    ensures var r := IngestDelivery(env, ctx, ledger, candidate);
      && (r.Ok? <==> env.ValidDelivery(candidate))
      && (r.Ok? ==> Reachable(env, ctx, r.value.0) && ledger.core.entries <= r.value.0.core.entries)
  {
    var stream :| ValidStream(env, stream) && LedgerAfter(env, ctx, stream) == ledger;
    LedgerAfterIsRun(env, ctx, stream);
    if env.ValidDelivery(candidate) {
      var longer := stream + [candidate];
      TakeFront(stream, candidate);
      assert ValidStream(env, longer);
      assert LedgerAfter(env, ctx, longer) == IngestEvent(env, ctx, ledger, candidate).0;
    }
  }

  /** The receipts of the first i deliveries of a stream. */
  function ReceiptsUpTo(env: Env, ctx: Context, stream: seq<Delivery>, i: nat): (receipts: seq<Receipt>)
    requires i <= |stream|
    ensures |receipts| == i
    ensures forall k | 0 <= k < i :: receipts[k] == ReceiptAt(env, ctx, stream, k)
  {
    seq(i, k requires 0 <= k < i => ReceiptAt(env, ctx, stream, k))
  }

  lemma ReceiptsNext(env: Env, ctx: Context, stream: seq<Delivery>, i: nat)
    requires i < |stream|
    ensures ReceiptsUpTo(env, ctx, stream, i + 1) == ReceiptsUpTo(env, ctx, stream, i) + [ReceiptAt(env, ctx, stream, i)]
  {}

  /** Replays a stream, collecting the receipts. */
  method Replay(env: Env, ctx: Context, candidates: seq<Delivery>)
    returns (r: Result<(Ledger, seq<Receipt>), Denial>)
    ensures !ValidStream(env, candidates) ==> r == Err(DELIVERY_DENIED)
    ensures ValidStream(env, candidates) ==>
      r == Ok((LedgerAfter(env, ctx, candidates), ReceiptsUpTo(env, ctx, candidates, |candidates|)))
  {
    if !ValidStream(env, candidates) {
      return Err(DELIVERY_DENIED);
    }
    var ledger := CreateLedger(env, ctx);
    var receipts: seq<Receipt> := [];
    for i := 0 to |candidates|
      invariant ledger == LedgerAfter(env, ctx, candidates[..i])
      invariant receipts == ReceiptsUpTo(env, ctx, candidates, i)
    {
      LedgerAfterNext(env, ctx, candidates, i);
      ReceiptsNext(env, ctx, candidates, i);
      var next := IngestEvent(env, ctx, ledger, candidates[i]);
      ledger := next.0;
      receipts := receipts + [next.1];
    }
    TakeAll(candidates);
    return Ok((ledger, receipts));
  }
}
