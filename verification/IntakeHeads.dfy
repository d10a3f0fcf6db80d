/** The history of contribution heads: in every reachable ledger it is a simple chain, and what
    happened to a head is final. */
module IntakeHeads {
  import opened Options
  import opened Sequences
  import opened Text
  import opened IntakeLedger
  import opened EventLog
  import opened IntakeReplay

  /** Why a head that replaces another was appended. */
  function ReplacementReasons(ancestor: Option<Text>, replaced: Text): seq<Reason> {
    if ancestor == Some(replaced) then [PR_HEAD_SUPERSESSION]
    else if ancestor == None then [PR_HEAD_FORCE_PUSH, UNKNOWN_ANCESTOR]
    else [PR_HEAD_FORCE_PUSH]
  }

  /** Heads are pairwise distinct, and each one after the first replaces exactly the one before it,
      no earlier in time. */
  ghost predicate HeadChain(heads: seq<Entry>) {
    && (forall i, j | 0 <= i < j < |heads| :: heads[i].core.headDigest != heads[j].core.headDigest)
    && (heads != [] ==> heads[0].core.classification == Classification(APPENDED, [NEW_CONTRIBUTION], false, None))
    && (forall k | 1 <= k < |heads| :: Replaces(heads[k], heads[k - 1]))
  }

  ghost predicate Replaces(next: Entry, previous: Entry) {
    && next.core.classification == Classification(APPENDED,
         ReplacementReasons(next.core.ancestorDigest, previous.core.headDigest), false, Some(previous.core.headDigest))
    && previous.core.receivedAtMs <= next.core.receivedAtMs
  }

  lemma AppendedPush(entries: seq<Entry>, entry: Entry)
    ensures Appended(entries + [entry])
         == if entry.core.classification.disposition == APPENDED then Appended(entries) + [entry] else Appended(entries)
  {
    TakeFront(entries, entry);
  }

  /** Where a head stands in the head history. */
  function HeadIndex(heads: seq<Entry>, head: Text): (r: Option<nat>)
    ensures r.Some? ==> r.value < |heads| && heads[r.value].core.headDigest == head
    ensures r.None? ==> forall k | 0 <= k < |heads| :: heads[k].core.headDigest != head
  {
    if heads == [] then None
    else if heads[|heads| - 1].core.headDigest == head then Some(|heads| - 1)
    else HeadIndex(heads[..|heads| - 1], head)
  }

  lemma WasAppendedIffHead(entries: seq<Entry>, head: Text)
    ensures WasAppended(entries, head) <==> HeadIndex(Appended(entries), head).Some?
  {
    AppendedAreEntries(entries);
    var heads := Appended(entries);
    var k := HeadIndex(heads, head);
    if k.Some? {
      assert heads[k.value] in entries;
      var i :| 0 <= i < |entries| && entries[i] == heads[k.value];
    }
    if WasAppended(entries, head) {
      var i :| 0 <= i < |entries| && entries[i].core.classification.disposition == APPENDED
        && entries[i].core.headDigest == head;
      assert entries[i] in heads;
    }
  }

  lemma HeadChainPush(heads: seq<Entry>, entry: Entry)
    requires HeadChain(heads)
    requires forall k | 0 <= k < |heads| :: heads[k].core.headDigest != entry.core.headDigest
    requires if heads == [] then entry.core.classification == Classification(APPENDED, [NEW_CONTRIBUTION], false, None)
             else Replaces(entry, heads[|heads| - 1])
    ensures HeadChain(heads + [entry])
  {}

  /** A delivery is appended only with a head that is new, and then replaces the last one. */
  lemma AppendedClassification(entries: seq<Entry>, event: Delivery)
    requires ClassifyHead(entries, event).disposition == APPENDED
    ensures var c, heads := ClassifyHead(entries, event), Appended(entries);
      && HeadIndex(heads, event.headDigest).None?
      && if heads == [] then c == Classification(APPENDED, [NEW_CONTRIBUTION], false, None)
         else
           var last := heads[|heads| - 1].core;
           && c == Classification(APPENDED, ReplacementReasons(event.ancestorDigest, last.headDigest), false,
                                  Some(last.headDigest))
           && last.receivedAtMs <= event.receivedAtMs
  {
    WasAppendedIffHead(entries, event.headDigest);
  }

  lemma NextEntryKeepsChain(env: Env, ctx: Context, entries: seq<Entry>, event: Delivery, entry: Entry)
    requires HeadChain(Appended(entries))
    requires NextEntry(env, ctx, entries, event) == Some(entry)
    ensures HeadChain(Appended(entries + [entry]))
  {
    AppendedPush(entries, entry);
    if entry.core.classification.disposition == APPENDED {
      assert entry.core.classification == ClassifyHead(entries, event);
      AppendedClassification(entries, event);
      HeadChainPush(Appended(entries), entry);
    }
  }

  lemma {:induction false} LawfulHeadChain(env: Env, ctx: Context, entries: seq<Entry>)
    requires LawfulLog(env, ctx, entries)
    ensures HeadChain(Appended(entries))
  {
    if entries != [] {
      var front, last := entries[..|entries| - 1], entries[|entries| - 1];
      LawfulPrefix(Step(env, ctx), SubmittedEvent, ValidIn(env), entries, |front|);
      LawfulHeadChain(env, ctx, front);
      assert LawfulAt(Step(env, ctx), SubmittedEvent, ValidIn(env), entries, |front|);
      NextEntryKeepsChain(env, ctx, front, SubmittedEvent(last), last);
      SplitLast(entries);
    }
  }

  /** The head history of every reachable ledger is a chain. */
  lemma ReachableHeadChain(env: Env, ctx: Context, ledger: Ledger)
    requires Reachable(env, ctx, ledger)
    ensures HeadChain(Appended(ledger.core.entries))
  {
    ReachableIffLawful(env, ctx, ledger);
    LawfulHeadChain(env, ctx, ledger.core.entries);
  }

  // ---------------------------------------------------------------- status

  /** The status of the k-th head of a chain, told by what came next. */
  function StatusInChain(heads: seq<Entry>, k: nat): HeadStatus
    requires k < |heads|
  {
    if k == |heads| - 1 then CURRENT
    else if heads[k + 1].core.ancestorDigest == Some(heads[k].core.headDigest) then SUPERSEDED
    else INVALIDATED
  }

  lemma {:induction false} DisplacerInChain(heads: seq<Entry>, from: nat, k: nat)
    requires HeadChain(heads) && from <= k + 1 < |heads|
    ensures FirstDisplacer(heads[from..], heads[k].core.headDigest) == Some(heads[k + 1])
    decreases k + 1 - from
  {
    assert heads[from..][1..] == heads[from + 1..];
    if from == k + 1 {
      assert Replaces(heads[k + 1], heads[k]);
    } else {
      if from > 0 { assert Replaces(heads[from], heads[from - 1]); }
      DisplacerInChain(heads, from + 1, k);
    }
  }

  lemma NothingDisplaced(heads: seq<Entry>, head: Text)
    requires HeadChain(heads) && HeadIndex(heads, head).None?
    ensures FirstDisplacer(heads, head).None?
  {
    forall k | 0 <= k < |heads| ensures heads[k].core.classification.replacedHead != Some(head) {
      if k > 0 { assert Replaces(heads[k], heads[k - 1]); }
    }
  }

  /** Status derived from the whole history is exactly what the next head of the chain says, and a
      head that was never appended is unknown. */
  lemma StatusExact(entries: seq<Entry>, head: Text)
    requires HeadChain(Appended(entries))
    ensures StatusOf(entries, head) ==
      match HeadIndex(Appended(entries), head)
      case None => UNKNOWN
      case Some(k) => StatusInChain(Appended(entries), k)
  {
    var heads := Appended(entries);
    match HeadIndex(heads, head)
    case None => NothingDisplaced(heads, head);
    case Some(k) =>
      if k < |heads| - 1 {
        assert heads[0..] == heads;
        DisplacerInChain(heads, 0, k);
        assert Replaces(heads[k + 1], heads[k]);
      }
  }

  /** The current head is the only one admitted to deep CI. */
  lemma CurrentIffLastHead(entries: seq<Entry>, head: Text)
    requires HeadChain(Appended(entries))
    ensures StatusOf(entries, head) == CURRENT
       <==> CurrentHead(entries).Some? && CurrentHead(entries).value.core.headDigest == head
  {
    StatusExact(entries, head);
  }

  /** The same ledger, tenant, repository and contribution, whoever acts and with whatever authority. */
  predicate SameContribution(a: Identity, b: Identity) {
    a.ledgerId == b.ledgerId && a.tenantId == b.tenantId && a.repositoryId == b.repositoryId
    && a.contributionId == b.contributionId
  }

  /** Every classification told by history and identity alone, whatever the order of the checks. */
  lemma ClassificationExactly(entries: seq<Entry>, trusted: Identity, event: Delivery, digest: Text)
    ensures
      var submitted := event.identity;
      var c := Classify(entries, event, DeriveBinding(trusted, submitted), digest);
      var unseen := !DeliveryIdUsed(entries, event.deliveryId);
      var current := CurrentHead(entries);
      && (c.disposition == TRANSPORT_DUPLICATE <==> Redelivered(entries, event, digest))
      && (c.reasons == [DELIVERY_ID_REUSE_TAMPER] <==> !unseen && !Redelivered(entries, event, digest))
      && (c.reasons == [TRUST_CONTEXT_MISMATCH] <==> unseen && !SameContribution(submitted, trusted))
      && (c.reasons == [AUTHORITY_WIDENING] <==>
            unseen && SameContribution(submitted, trusted) && Rank(submitted.authorityScope) > Rank(trusted.authorityScope))
      && (c.reasons == [AUTHORITY_CHANGE] <==>
            && unseen && SameContribution(submitted, trusted) && submitted != trusted
            && Rank(submitted.authorityScope) <= Rank(trusted.authorityScope))
      && (c.disposition == SEMANTIC_DUPLICATE <==>
            unseen && submitted == trusted && current.Some? && current.value.core.headDigest == event.headDigest)
      && (c.disposition == APPENDED <==>
            && unseen && submitted == trusted && !WasAppended(entries, event.headDigest)
            && (current.Some? ==> current.value.core.receivedAtMs <= event.receivedAtMs))
      && (c.quarantined <==> c.disposition == STALE || c.disposition == REJECTED)
  {
    assert Redelivered(entries, event, digest) ==> DeliveryIdUsed(entries, event.deliveryId);
    if CurrentHead(entries).Some? {
      AppendedAreEntries(entries);
      CurrentWasAppended(entries);
    } else {
      WasAppendedIffHead(entries, event.headDigest);
    }
  }

  lemma CurrentWasAppended(entries: seq<Entry>)
    requires CurrentHead(entries).Some?
    ensures WasAppended(entries, CurrentHead(entries).value.core.headDigest)
  {
    var heads := Appended(entries);
    assert heads[|heads| - 1] in heads;
    WasAppendedIffHead(entries, heads[|heads| - 1].core.headDigest);
  }

  /** The entries admitted to deep CI. */
  function DeepCiEligible(entries: seq<Entry>): seq<Entry> {
    match CurrentHead(entries)
    case None => []
    case Some(current) => [current]
  }

  lemma LawfulAppendedIsTrusted(env: Env, ctx: Context, entries: seq<Entry>, i: nat)
    requires LawfulLog(env, ctx, entries) && i < |entries|
    requires entries[i].core.classification.disposition == APPENDED
    ensures entries[i].core.evidence.identity == ctx.identity && !entries[i].core.classification.quarantined
  {
    assert LawfulAt(Step(env, ctx), SubmittedEvent, ValidIn(env), entries, i);
    assert NextEntry(env, ctx, entries[..i], SubmittedEvent(entries[i])) == Some(entries[i]);
  }

  /** Deep CI runs for at most one entry: one delivered under exactly the trusted identity, never
      quarantined, whose head is current. */
  lemma EligibleIsTrusted(env: Env, ctx: Context, ledger: Ledger, e: Entry)
    requires Reachable(env, ctx, ledger) && e in DeepCiEligible(ledger.core.entries)
    ensures e in ledger.core.entries && e.core.evidence.identity == ctx.identity
      && !e.core.classification.quarantined && StatusOf(ledger.core.entries, e.core.headDigest) == CURRENT
  {
    var entries := ledger.core.entries;
    ReachableHeadChain(env, ctx, ledger);
    ReachableIffLawful(env, ctx, ledger);
    AppendedAreEntries(entries);
    assert e in Appended(entries);
    var i :| 0 <= i < |entries| && entries[i] == e;
    LawfulAppendedIsTrusted(env, ctx, entries, i);
    CurrentIffLastHead(entries, e.core.headDigest);
  }

  lemma {:induction false} AppendedGrows(entries: seq<Entry>, later: seq<Entry>)
    requires entries <= later
    ensures Appended(entries) <= Appended(later)
  {
    if entries != later {
      var front := later[..|later| - 1];
      AppendedGrows(entries, front);
      SplitLast(later);
      AppendedPush(front, later[|later| - 1]);
    }
  }

  /** Which statuses a head may have later, given the one it has now. */
  predicate MayBecome(now: HeadStatus, later: HeadStatus) {
    match now
    case UNKNOWN => true
    case CURRENT => later != UNKNOWN
    case SUPERSEDED => later == SUPERSEDED
    case INVALIDATED => later == INVALIDATED
  }

  lemma IndexKept(heads: seq<Entry>, later: seq<Entry>, k: nat)
    requires HeadChain(later) && heads <= later && k < |heads|
    ensures HeadIndex(later, heads[k].core.headDigest) == Some(k)
  {
    assert later[k] == heads[k];
  }

  lemma ChainGrows(heads: seq<Entry>, later: seq<Entry>, k: nat)
    requires heads <= later && k < |heads|
    ensures MayBecome(StatusInChain(heads, k), StatusInChain(later, k))
  {
    assert later[k] == heads[k];
    if k + 1 < |heads| {
      assert later[k + 1] == heads[k + 1];
    }
  }

  lemma ChainStatusPermanent(entries: seq<Entry>, later: seq<Entry>, head: Text)
    requires HeadChain(Appended(entries)) && HeadChain(Appended(later))
    requires Appended(entries) <= Appended(later)
    ensures MayBecome(StatusOf(entries, head), StatusOf(later, head))
  {
    StatusExact(entries, head);
    StatusExact(later, head);
    var heads := Appended(entries);
    match HeadIndex(heads, head)
    case None =>
    case Some(k) =>
      IndexKept(heads, Appended(later), k);
      ChainGrows(heads, Appended(later), k);
  }

  lemma EntriesGrow(env: Env, ctx: Context, stream: seq<Delivery>, more: seq<Delivery>)
    ensures LedgerAfter(env, ctx, stream).core.entries <= LedgerAfter(env, ctx, stream + more).core.entries
  {
    LedgerAfterIsRun(env, ctx, stream);
    LedgerAfterIsRun(env, ctx, stream + more);
    RunGrows(Step(env, ctx), stream, more);
  }

  lemma ValidPrefix(env: Env, stream: seq<Delivery>, more: seq<Delivery>)
    requires ValidStream(env, stream + more)
    ensures ValidStream(env, stream)
  {
    assert forall i | 0 <= i < |stream| :: (stream + more)[i] == stream[i];
  }

  /** What happened to a head is final: over any continuation of any run its status leaves CURRENT at
      most once, never comes back, and never changes after that. */
  lemma StatusIsPermanent(env: Env, ctx: Context, stream: seq<Delivery>, more: seq<Delivery>, head: Text)
    requires ValidStream(env, stream + more)
    ensures MayBecome(StatusOf(LedgerAfter(env, ctx, stream).core.entries, head),
                      StatusOf(LedgerAfter(env, ctx, stream + more).core.entries, head))
  {
    ValidPrefix(env, stream, more);
    var before, after := LedgerAfter(env, ctx, stream), LedgerAfter(env, ctx, stream + more);
    ReachableHeadChain(env, ctx, before);
    ReachableHeadChain(env, ctx, after);
    EntriesGrow(env, ctx, stream, more);
    AppendedGrows(before.core.entries, after.core.entries);
    ChainStatusPermanent(before.core.entries, after.core.entries, head);
  }

  /** A later delivery of a head that was once appended, under a fresh delivery id and the trusted
      identity, never moves the head again; the reason recorded agrees with the head's status. */
  lemma ReplayedHeadIsStale(env: Env, ctx: Context, ledger: Ledger, event: Delivery)
    requires Reachable(env, ctx, ledger)
    requires DeriveBinding(ctx.identity, event.identity) == CONTEXT_MATCH
    requires !DeliveryIdUsed(ledger.core.entries, event.deliveryId)
    ensures var entries := ledger.core.entries;
      var c := Classify(entries, event, CONTEXT_MATCH, env.sha(DeliveryMaterial(event)));
      match StatusOf(entries, event.headDigest)
      case CURRENT => c == Classification(SEMANTIC_DUPLICATE, [HEAD_ALREADY_CURRENT], false, None)
      case SUPERSEDED => c == Classification(STALE, [SUPERSEDED_HEAD_REPLAY], true, None)
      case INVALIDATED => c == Classification(STALE, [INVALIDATED_HEAD_REPLAY], true, None)
      case UNKNOWN => c.disposition == APPENDED || c == Classification(STALE, [STALE_HEAD_TIMESTAMP], true, None)
  {
    var entries := ledger.core.entries;
    ReachableHeadChain(env, ctx, ledger);
    FreshIsNotRedelivered(entries, event, env.sha(DeliveryMaterial(event)));
    KnownHeadClassification(entries, event);
  }

  lemma FreshIsNotRedelivered(entries: seq<Entry>, event: Delivery, digest: Text)
    requires !DeliveryIdUsed(entries, event.deliveryId)
    ensures Classify(entries, event, CONTEXT_MATCH, digest) == ClassifyHead(entries, event)
  {}

  lemma KnownHeadClassification(entries: seq<Entry>, event: Delivery)
    requires HeadChain(Appended(entries))
    ensures var c := ClassifyHead(entries, event);
      match StatusOf(entries, event.headDigest)
      case CURRENT => c == Classification(SEMANTIC_DUPLICATE, [HEAD_ALREADY_CURRENT], false, None)
      case SUPERSEDED => c == Classification(STALE, [SUPERSEDED_HEAD_REPLAY], true, None)
      case INVALIDATED => c == Classification(STALE, [INVALIDATED_HEAD_REPLAY], true, None)
      case UNKNOWN => c.disposition == APPENDED || c == Classification(STALE, [STALE_HEAD_TIMESTAMP], true, None)
  {
    StatusExact(entries, event.headDigest);
    WasAppendedIffHead(entries, event.headDigest);
  }
}
