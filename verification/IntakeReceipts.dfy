/** Redeliveries and receipts: repeating a delivery never changes the ledger, and the receipts that
    verify are exactly those the ledger issues. */
module IntakeReceipts {
  import opened Numbers
  import opened Options
  import opened Sequences
  import opened Text
  import opened IntakeLedger
  import opened EventLog
  import opened IntakeReplay

  // ---------------------------------------------------------------- redelivery

  function DigestOf(env: Env, event: Delivery): Text {
    env.sha(DeliveryMaterial(event))
  }

  lemma RedeliveredPush(env: Env, ctx: Context, entries: seq<Entry>, event: Delivery, other: Delivery)
    requires event == other || Redelivered(entries, other, DigestOf(env, other))
    ensures Redelivered(Push(Step(env, ctx), entries, event), other, DigestOf(env, other))
  {
    var next := NextEntry(env, ctx, entries, event);
    assert Step(env, ctx)(entries, event) == next;
    if next.Some? {
      var log := entries + [next.value];
      if Redelivered(entries, other, DigestOf(env, other)) {
        var i :| 0 <= i < |entries| && entries[i].core.deliveryId == other.deliveryId
          && entries[i].core.deliveryDigest == DigestOf(env, other);
        assert log[i] == entries[i];
      } else {
        assert log[|entries|] == next.value;
      }
    }
  }

  /** Whatever became of a delivery, delivering it again is recognised as a redelivery. */
  lemma {:induction false} DeliveredIsRedelivered(env: Env, ctx: Context, stream: seq<Delivery>, event: Delivery)
    requires event in stream
    ensures Redelivered(Run(Step(env, ctx), stream), event, DigestOf(env, event))
  {
    var front, last := stream[..|stream| - 1], stream[|stream| - 1];
    SplitLast(stream);
    if event in front {
      DeliveredIsRedelivered(env, ctx, front, event);
    }
    RedeliveredPush(env, ctx, Run(Step(env, ctx), front), last, event);
  }

  /** Inserting a repeat of an earlier delivery anywhere later in a stream changes nothing. */
  lemma RepeatChangesNothing(env: Env, ctx: Context, before: seq<Delivery>, repeat: Delivery, after: seq<Delivery>)
    requires repeat in before
    ensures LedgerAfter(env, ctx, before + [repeat] + after) == LedgerAfter(env, ctx, before + after)
  {
    var step := Step(env, ctx);
    DeliveredIsRedelivered(env, ctx, before, repeat);
    RunPush(step, before, repeat);
    assert step(Run(step, before), repeat) == NextEntry(env, ctx, Run(step, before), repeat);
    SameLogSameFuture(step, before + [repeat], before, after);
    LedgerAfterIsRun(env, ctx, before + [repeat] + after);
    LedgerAfterIsRun(env, ctx, before + after);
  }

  // ---------------------------------------------------------------- receipts

  const REDELIVERY: Classification := Classification(TRANSPORT_DUPLICATE, [TRANSPORT_REDELIVERY], false, None)

  /** The receipt an entry stands for, or that of its redelivery. */
  function ExpectedReceipt(env: Env, ctx: Context, entry: Entry, redelivery: bool): Receipt {
    BuildReceipt(env, ctx, SubmittedEvent(entry), entry.core.sequence,
                 if redelivery then REDELIVERY else entry.core.classification,
                 entry.core.binding, entry.core.deliveryDigest)
  }

  function VerifyReceipt(env: Env, ctx: Context, ledger: Ledger, candidate: Receipt): Option<Receipt> {
    var core := candidate.core;
    if !env.WellFormedReceipt(candidate)
      || core.contextDigest != ctx.contextDigest || core.identity != ctx.identity
      || core.evidenceDigest != env.sha(EvidenceMaterial(core.evidence))
      || candidate.receiptDigest != env.sha(ReceiptMaterial(core))
    then None
    else if core.sequence > |ledger.core.entries| then None
    else
      var expected := ExpectedReceipt(env, ctx, ledger.core.entries[core.sequence - 1],
                                      core.disposition == TRANSPORT_DUPLICATE);
      if candidate == expected then Some(expected) else None
  }

  /** What the entry at index k of a lawful log looks like. */
  lemma LawfulEntry(env: Env, ctx: Context, entries: seq<Entry>, k: nat)
    requires LawfulLog(env, ctx, entries) && k < |entries|
    ensures var entry := entries[k];
      var event := SubmittedEvent(entry);
      && env.ValidDelivery(event)
      && entry.core.sequence == k + 1
      && entry.core.deliveryDigest == DigestOf(env, event)
      && entry.core.binding == DeriveBinding(ctx.identity, event.identity)
      && !Redelivered(entries[..k], event, DigestOf(env, event))
      && entry.core.classification == Classify(entries[..k], event, entry.core.binding, DigestOf(env, event))
  {
    assert LawfulAt(Step(env, ctx), SubmittedEvent, ValidIn(env), entries, k);
    assert NextEntry(env, ctx, entries[..k], SubmittedEvent(entries[k])) == Some(entries[k]);
  }

  lemma ExpectedIsWellFormed(env: Env, ctx: Context, entries: seq<Entry>, k: nat, redelivery: bool)
    requires env.Sound() && BoundContext(env, ctx) && LawfulLog(env, ctx, entries)
    requires k < |entries| && k + 1 <= MAX_SAFE_INTEGER
    ensures env.WellFormedReceipt(ExpectedReceipt(env, ctx, entries[k], redelivery))
    ensures (ExpectedReceipt(env, ctx, entries[k], redelivery).core.disposition == TRANSPORT_DUPLICATE) == redelivery
  {
    LawfulEntry(env, ctx, entries, k);
    LawfulDigests(env, ctx, entries);
    var event := SubmittedEvent(entries[k]);
    ClassifyShape(env, entries[..k], event, entries[k].core.binding, DigestOf(env, event));
  }

  /** Against a reachable ledger, the receipts that verify are exactly the expected ones. */
  lemma VerifiedIffExpected(env: Env, ctx: Context, ledger: Ledger, candidate: Receipt)
    requires env.Sound() && BoundContext(env, ctx) && Reachable(env, ctx, ledger)
    requires |ledger.core.entries| <= MAX_SAFE_INTEGER
    ensures var entries, k := ledger.core.entries, candidate.core.sequence - 1;
      VerifyReceipt(env, ctx, ledger, candidate) == Some(candidate) <==>
        && 0 <= k < |entries|
        && (candidate == ExpectedReceipt(env, ctx, entries[k], false)
            || candidate == ExpectedReceipt(env, ctx, entries[k], true))
  {
    ReachableIffLawful(env, ctx, ledger);
    var entries, k := ledger.core.entries, candidate.core.sequence - 1;
    if 0 <= k < |entries| {
      ExpectedIsWellFormed(env, ctx, entries, k, false);
      ExpectedIsWellFormed(env, ctx, entries, k, true);
    }
  }

  /** The expected receipt of an entry is what ingesting its event issued when the entry was appended. */
  lemma ExpectedWasIssued(env: Env, ctx: Context, entries: seq<Entry>, k: nat)
    requires LawfulLog(env, ctx, entries) && k < |entries|
    ensures IngestEvent(env, ctx, LedgerOf(env, ctx, entries[..k]), SubmittedEvent(entries[k])).1
         == ExpectedReceipt(env, ctx, entries[k], false)
  {
    LawfulEntry(env, ctx, entries, k);
  }

  lemma {:induction false} FindRedeliveredAt(entries: seq<Entry>, event: Delivery, digest: Text, k: nat)
    requires k < |entries| && !Redelivered(entries[..k], event, digest)
    requires entries[k].core.deliveryId == event.deliveryId && entries[k].core.deliveryDigest == digest
    ensures Redelivered(entries, event, digest) && FindRedelivered(entries, event, digest) == entries[k]
  {
    if k > 0 {
      assert entries[..k][0] == entries[0];
      var passed := entries[1..][..k - 1];
      assert passed == entries[..k][1..];
      forall i | 0 <= i < |passed|
        ensures passed[i].core.deliveryId != event.deliveryId || passed[i].core.deliveryDigest != digest
      {
        assert passed[i] == entries[..k][i + 1];
      }
      FindRedeliveredAt(entries[1..], event, digest, k - 1);
    }
  }

  /** The redelivery receipt of an entry is what delivering its event once more issues. */
  lemma RedeliveryIsIssued(env: Env, ctx: Context, entries: seq<Entry>, k: nat)
    requires LawfulLog(env, ctx, entries) && k < |entries|
    ensures IngestEvent(env, ctx, LedgerOf(env, ctx, entries), SubmittedEvent(entries[k]))
         == (LedgerOf(env, ctx, entries), ExpectedReceipt(env, ctx, entries[k], true))
  {
    LawfulEntry(env, ctx, entries, k);
    FindRedeliveredAt(entries, SubmittedEvent(entries[k]), DigestOf(env, SubmittedEvent(entries[k])), k);
  }

  /** A receipt verifies against a reachable ledger exactly when the ledger issued it: either on the
      step that appended the entry it names, or for delivering that entry's event again. */
  lemma ReceiptVerifiesIffIssued(env: Env, ctx: Context, ledger: Ledger, candidate: Receipt)
    requires env.Sound() && BoundContext(env, ctx) && Reachable(env, ctx, ledger)
    requires |ledger.core.entries| <= MAX_SAFE_INTEGER
    ensures var entries, k := ledger.core.entries, candidate.core.sequence - 1;
      VerifyReceipt(env, ctx, ledger, candidate) == Some(candidate) <==>
        && 0 <= k < |entries|
        && var event := SubmittedEvent(entries[k]);
           (candidate == IngestEvent(env, ctx, LedgerOf(env, ctx, entries[..k]), event).1
            || candidate == IngestEvent(env, ctx, ledger, event).1)
  {
    VerifiedIffExpected(env, ctx, ledger, candidate);
    ReachableIffLawful(env, ctx, ledger);
    var entries, k := ledger.core.entries, candidate.core.sequence - 1;
    if 0 <= k < |entries| {
      ExpectedWasIssued(env, ctx, entries, k);
      RedeliveryIsIssued(env, ctx, entries, k);
    }
  }

  /** The hash tells different deliveries apart. */
  ghost predicate DeliveriesTold(env: Env) {
    forall a, b | env.ValidDelivery(a) && env.ValidDelivery(b) && DigestOf(env, a) == DigestOf(env, b) :: a == b
  }

  /** The receipt of one ingestion is the expected receipt of some entry of the ledger it leaves. */
  lemma IssuedIsExpected(env: Env, ctx: Context, entries: seq<Entry>, event: Delivery) returns (k: nat, redelivery: bool)
    requires DeliveriesTold(env) && LawfulLog(env, ctx, entries) && env.ValidDelivery(event)
    ensures var after := Push(Step(env, ctx), entries, event);
      && k < |after|
      && IngestEvent(env, ctx, LedgerOf(env, ctx, entries), event).1 == ExpectedReceipt(env, ctx, after[k], redelivery)
  {
    var digest := DigestOf(env, event);
    assert Step(env, ctx)(entries, event) == NextEntry(env, ctx, entries, event);
    redelivery := Redelivered(entries, event, digest);
    if redelivery {
      var prior := FindRedelivered(entries, event, digest);
      k :| 0 <= k < |entries| && entries[k] == prior;
      LawfulEntry(env, ctx, entries, k);
      assert SubmittedEvent(prior) == event;
    } else {
      k := |entries|;
    }
  }

  lemma ExpectedVerifies(env: Env, ctx: Context, stream: seq<Delivery>, i: nat, redelivery: bool)
    requires env.Sound() && BoundContext(env, ctx) && ValidStream(env, stream)
    requires |stream| <= MAX_SAFE_INTEGER && i < |LedgerAfter(env, ctx, stream).core.entries|
    ensures var ledger := LedgerAfter(env, ctx, stream);
      var receipt := ExpectedReceipt(env, ctx, ledger.core.entries[i], redelivery);
      VerifyReceipt(env, ctx, ledger, receipt) == Some(receipt)
  {
    var ledger := LedgerAfter(env, ctx, stream);
    LedgerAfterIsRun(env, ctx, stream);
    RunNoLonger(Step(env, ctx), stream);
    assert Reachable(env, ctx, ledger);
    ReachableIffLawful(env, ctx, ledger);
    LawfulEntry(env, ctx, ledger.core.entries, i);
    VerifiedIffExpected(env, ctx, ledger, ExpectedReceipt(env, ctx, ledger.core.entries[i], redelivery));
  }

  lemma RunPrefixGrows(env: Env, ctx: Context, stream: seq<Delivery>, k: nat, j: nat)
    requires k < j <= |stream|
    ensures Push(Step(env, ctx), Run(Step(env, ctx), stream[..k]), stream[k]) <= Run(Step(env, ctx), stream[..j])
  {
    TakeNext(stream, k);
    RunPush(Step(env, ctx), stream[..k], stream[k]);
    assert stream[..j] == stream[..k + 1] + stream[k + 1..j];
    RunGrows(Step(env, ctx), stream[..k + 1], stream[k + 1..j]);
  }

  lemma PrefixLawful(env: Env, ctx: Context, stream: seq<Delivery>, k: nat)
    requires ValidStream(env, stream) && k <= |stream|
    ensures LawfulLog(env, ctx, Run(Step(env, ctx), stream[..k]))
  {
    StepReadsBack(env, ctx);
    ValidStreamIsAllValid(env, stream);
    RunIsLawful(Step(env, ctx), SubmittedEvent, ValidIn(env), stream[..k]);
  }

  /** Receipts never rot: whatever a run issued on step k verifies against the ledger after that
      step and after every later one. */
  lemma ReceiptsNeverRot(env: Env, ctx: Context, stream: seq<Delivery>, k: nat, j: nat)
    requires env.Sound() && BoundContext(env, ctx) && DeliveriesTold(env)
    requires ValidStream(env, stream) && k < j <= |stream| <= MAX_SAFE_INTEGER
    ensures var receipt := ReceiptAt(env, ctx, stream, k);
      VerifyReceipt(env, ctx, LedgerAfter(env, ctx, stream[..j]), receipt) == Some(receipt)
  {
    PrefixLawful(env, ctx, stream, k);
    LedgerAfterIsRun(env, ctx, stream[..k]);
    LedgerAfterIsRun(env, ctx, stream[..j]);
    var i, redelivery := IssuedIsExpected(env, ctx, Run(Step(env, ctx), stream[..k]), stream[k]);
    RunPrefixGrows(env, ctx, stream, k, j);
    assert ValidStream(env, stream[..j]);
    ExpectedVerifies(env, ctx, stream[..j], i, redelivery);
  }
}
