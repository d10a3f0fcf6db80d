/** What the read connectors accept as a source: batches and, for ERP, records in strictly rising order
    without repeated ids. */
module ReadSource {
  import opened Options
  import opened ReadCursor
  import opened ReadConnector

  // ---------------------------------------------------------------- CRM

  /** Shapes of ids and of the facts of an entity. */
  datatype Shapes<!R> = Shapes(isId: string -> bool, fits: (Entity, R) -> bool)

  /** The batch has a higher sequence number than the one before it, and an id of its own so far. */
  predicate HeaderFits<R>(shapes: Shapes<R>, k: Connector, batches: seq<Batch<R>>, i: nat)
    requires i < |batches|
  {
    && shapes.isId(batches[i].batchId)
    && batches[i].entity in Entities(k)
    && batches[i].sequence > (if i == 0 then 0 else batches[i - 1].sequence)
    && forall j | 0 <= j < i :: batches[j].batchId != batches[i].batchId
  }

  predicate FactsFit<R>(shapes: Shapes<R>, b: Batch<R>) {
    forall n | 0 <= n < |b.records| :: shapes.fits(b.entity, b.records[n])
  }

  predicate CrmBatchFits<R>(shapes: Shapes<R>, batches: seq<Batch<R>>, i: nat)
    requires i < |batches|
  {
    HeaderFits(shapes, CRM, batches, i) && FactsFit(shapes, batches[i])
  }

  predicate CrmBatchAccepted<R>(shapes: Shapes<R>, batches: seq<Batch<R>>, i: nat)
    requires i < |batches|
  {
    CrmBatchFits(shapes, batches, i) && batches[i].complete
  }

  /** Batch i is the first at fault, and its fault is to be incomplete. */
  predicate CrmPartialAt<R>(shapes: Shapes<R>, batches: seq<Batch<R>>, i: nat)
    requires i < |batches|
  {
    && CrmBatchFits(shapes, batches, i) && !batches[i].complete
    && forall j | 0 <= j < i :: CrmBatchAccepted(shapes, batches, j)
  }

  lemma CrmFaultElsewhere<R>(shapes: Shapes<R>, batches: seq<Batch<R>>, i: nat)
    requires i < |batches| && forall j | 0 <= j < i :: CrmBatchAccepted(shapes, batches, j)
    requires !CrmBatchFits(shapes, batches, i)
    ensures forall l | 0 <= l < |batches| :: !CrmPartialAt(shapes, batches, l)
  {
    forall l | 0 <= l < |batches| ensures !CrmPartialAt(shapes, batches, l) {
      assert l < i ==> CrmBatchAccepted(shapes, batches, l);
      assert l > i ==> !CrmBatchAccepted(shapes, batches, i);
    }
  }

  /** The batches of a CRM export, in the order of its checks: the first batch at fault decides. */
  method ValidateCrmBatches<R>(shapes: Shapes<R>, batches: seq<Batch<R>>) returns (r: Option<Denial>)
    ensures r.None? <==> forall i | 0 <= i < |batches| :: CrmBatchAccepted(shapes, batches, i)
    ensures r == Some(SOURCE_PARTIAL) <==> exists i | 0 <= i < |batches| :: CrmPartialAt(shapes, batches, i)
    ensures r in {None, Some(SOURCE_PARTIAL), Some(SOURCE_MALFORMED)}
  {
    var seen: set<string> := {};
    var previous := 0;
    for i := 0 to |batches|
      invariant forall j | 0 <= j < i :: CrmBatchAccepted(shapes, batches, j)
      invariant previous == if i == 0 then 0 else batches[i - 1].sequence
      invariant seen == set j | 0 <= j < i :: batches[j].batchId
    {
      var b := batches[i];
      if !shapes.isId(b.batchId) || b.entity !in Entities(CRM) || b.sequence <= previous || b.batchId in seen
         || !FactsFit(shapes, b)
      {
        CrmFaultElsewhere(shapes, batches, i);
        assert !CrmBatchAccepted(shapes, batches, i);
        return Some(SOURCE_MALFORMED);
      }
      previous := b.sequence;
      seen := seen + {b.batchId};
      if !b.complete {
        assert CrmPartialAt(shapes, batches, i) && !CrmBatchAccepted(shapes, batches, i);
        return Some(SOURCE_PARTIAL);
      }
    }
    forall i | 0 <= i < |batches| ensures !CrmPartialAt(shapes, batches, i) {
      assert CrmBatchAccepted(shapes, batches, i);
    }
    r := None;
  }

  // ---------------------------------------------------------------- ERP

  datatype SourceRecord<F> = SourceRecord(sourceRecordId: string, updatedAtFits: bool, lineageSequence: int, facts: F)

  /** (i, n) comes before (j, m) in reading order. */
  predicate Before(i: int, n: int, j: int, m: int) {
    i < j || (i == j && n < m)
  }

  function IdAt<F>(batches: seq<Batch<SourceRecord<F>>>, i: nat, n: nat): string
    requires i < |batches| && n < |batches[i].records|
  {
    batches[i].records[n].sourceRecordId
  }

  /** No record read before has the id of record m of batch j. */
  predicate NewId<F>(batches: seq<Batch<SourceRecord<F>>>, j: nat, m: nat)
    requires j < |batches| && m < |batches[j].records|
  {
    forall i, n | 0 <= i < |batches| && 0 <= n < |batches[i].records| && Before(i, n, j, m) ::
      IdAt(batches, i, n) != IdAt(batches, j, m)
  }

  predicate EntryFits<F>(shapes: Shapes<F>, batches: seq<Batch<SourceRecord<F>>>, j: nat, m: nat)
    requires j < |batches| && m < |batches[j].records|
  {
    var entry := batches[j].records[m];
    && shapes.isId(entry.sourceRecordId)
    && NewId(batches, j, m)
    && entry.updatedAtFits
    && entry.lineageSequence > (if m == 0 then 0 else batches[j].records[m - 1].lineageSequence)
    && shapes.fits(batches[j].entity, entry.facts)
  }

  predicate EntriesFit<F>(shapes: Shapes<F>, batches: seq<Batch<SourceRecord<F>>>, j: nat)
    requires j < |batches|
  {
    forall m | 0 <= m < |batches[j].records| :: EntryFits(shapes, batches, j, m)
  }

  predicate ErpBatchFits<F>(shapes: Shapes<F>, batches: seq<Batch<SourceRecord<F>>>, j: nat)
    requires j < |batches|
  {
    HeaderFits(ForRecords(shapes), ERP, batches, j) && batches[j].complete && EntriesFit(shapes, batches, j)
  }

  /** Batch j is the first at fault, and its fault is to be incomplete; its records are not looked at. */
  predicate ErpPartialAt<F>(shapes: Shapes<F>, batches: seq<Batch<SourceRecord<F>>>, j: nat)
    requires j < |batches|
  {
    && HeaderFits(ForRecords(shapes), ERP, batches, j) && !batches[j].complete
    && forall l | 0 <= l < j :: ErpBatchFits(shapes, batches, l)
  }

  lemma ErpFaultElsewhere<F>(shapes: Shapes<F>, batches: seq<Batch<SourceRecord<F>>>, j: nat)
    requires j < |batches| && forall l | 0 <= l < j :: ErpBatchFits(shapes, batches, l)
    requires !HeaderFits(ForRecords(shapes), ERP, batches, j) || (batches[j].complete && !EntriesFit(shapes, batches, j))
    ensures forall l | 0 <= l < |batches| :: !ErpPartialAt(shapes, batches, l)
  {
    forall l | 0 <= l < |batches| ensures !ErpPartialAt(shapes, batches, l) {
      assert l < j ==> ErpBatchFits(shapes, batches, l);
      assert l > j ==> !ErpBatchFits(shapes, batches, j);
    }
  }

  function ForRecords<F>(shapes: Shapes<F>): Shapes<SourceRecord<F>> {
    Shapes(shapes.isId, (e, entry: SourceRecord<F>) => shapes.fits(e, entry.facts))
  }

  /** The ids of all records before (j, m). */
  ghost predicate IdsBefore<F>(batches: seq<Batch<SourceRecord<F>>>, j: int, m: int, ids: set<string>) {
    && (forall i, n | 0 <= i < |batches| && 0 <= n < |batches[i].records| && Before(i, n, j, m) :: IdAt(batches, i, n) in ids)
    && (forall id | id in ids :: exists i, n ::
          0 <= i < |batches| && 0 <= n < |batches[i].records| && Before(i, n, j, m) && IdAt(batches, i, n) == id)
  }

  lemma NewIdExactly<F>(batches: seq<Batch<SourceRecord<F>>>, j: nat, m: nat, ids: set<string>)
    requires j < |batches| && m < |batches[j].records| && IdsBefore(batches, j, m, ids)
    ensures NewId(batches, j, m) <==> IdAt(batches, j, m) !in ids
  {}

  lemma OneIdMore<F>(batches: seq<Batch<SourceRecord<F>>>, j: nat, m: nat, ids: set<string>)
    requires j < |batches| && m < |batches[j].records| && IdsBefore(batches, j, m, ids)
    ensures IdsBefore(batches, j, m + 1, ids + {IdAt(batches, j, m)})
  {
    assert Before(j, m, j, m + 1);
  }

  lemma NextBatch<F>(batches: seq<Batch<SourceRecord<F>>>, j: nat, ids: set<string>)
    requires j < |batches| && IdsBefore(batches, j, |batches[j].records|, ids)
    ensures IdsBefore(batches, j + 1, 0, ids)
  {
    forall i, n | 0 <= i < |batches| && 0 <= n < |batches[i].records| && Before(i, n, j + 1, 0)
      ensures IdAt(batches, i, n) in ids
    {
      assert Before(i, n, j, |batches[j].records|);
    }
    forall id | id in ids
      ensures exists i, n ::
        0 <= i < |batches| && 0 <= n < |batches[i].records| && Before(i, n, j + 1, 0) && IdAt(batches, i, n) == id
    {
      var i, n :| 0 <= i < |batches| && 0 <= n < |batches[i].records| && Before(i, n, j, |batches[j].records|)
                  && IdAt(batches, i, n) == id;
      assert Before(i, n, j + 1, 0);
    }
  }

  /** The entries of one batch, against the ids read before it. */
  method ValidateEntries<F>(shapes: Shapes<F>, batches: seq<Batch<SourceRecord<F>>>, j: nat, before: set<string>)
    returns (fits: bool, ids: set<string>)
    requires j < |batches| && IdsBefore(batches, j, 0, before)
    ensures fits <==> EntriesFit(shapes, batches, j)
    ensures fits ==> IdsBefore(batches, j + 1, 0, ids)
  {
    ids := before;
    var previous := 0;
    var records := batches[j].records;
    for m := 0 to |records|
      invariant forall l | 0 <= l < m :: EntryFits(shapes, batches, j, l)
      invariant previous == if m == 0 then 0 else records[m - 1].lineageSequence
      invariant IdsBefore(batches, j, m, ids)
    {
      var entry := records[m];
      NewIdExactly(batches, j, m, ids);
      if !shapes.isId(entry.sourceRecordId) || entry.sourceRecordId in ids || !entry.updatedAtFits
         || entry.lineageSequence <= previous || !shapes.fits(batches[j].entity, entry.facts)
      {
        assert !EntryFits(shapes, batches, j, m);
        return false, ids;
      }
      OneIdMore(batches, j, m, ids);
      previous := entry.lineageSequence;
      ids := ids + {entry.sourceRecordId};
    }
    NextBatch(batches, j, ids);
    fits := true;
  }

  /** The batches of an ERP export: accepted exactly when every batch and every record fits. */
  method ValidateErpBatches<F>(shapes: Shapes<F>, batches: seq<Batch<SourceRecord<F>>>) returns (r: Option<Denial>)
    ensures r.None? <==> forall j | 0 <= j < |batches| :: ErpBatchFits(shapes, batches, j)
    ensures r == Some(SOURCE_PARTIAL) <==> exists j | 0 <= j < |batches| :: ErpPartialAt(shapes, batches, j)
    ensures r in {None, Some(SOURCE_PARTIAL), Some(SOURCE_MALFORMED)}
  {
    var batchIds: set<string> := {};
    var recordIds: set<string> := {};
    var previous := 0;
    for j := 0 to |batches|
      invariant forall l | 0 <= l < j :: ErpBatchFits(shapes, batches, l)
      invariant previous == if j == 0 then 0 else batches[j - 1].sequence
      invariant batchIds == set l | 0 <= l < j :: batches[l].batchId
      invariant IdsBefore(batches, j, 0, recordIds)
    {
      var b := batches[j];
      if !shapes.isId(b.batchId) || b.entity !in Entities(ERP) || b.sequence <= previous || b.batchId in batchIds {
        ErpFaultElsewhere(shapes, batches, j);
        assert !ErpBatchFits(shapes, batches, j);
        return Some(SOURCE_MALFORMED);
      }
      previous := b.sequence;
      batchIds := batchIds + {b.batchId};
      if !b.complete {
        assert ErpPartialAt(shapes, batches, j) && !ErpBatchFits(shapes, batches, j);
        return Some(SOURCE_PARTIAL);
      }
      var fits, ids := ValidateEntries(shapes, batches, j, recordIds);
      if !fits {
        ErpFaultElsewhere(shapes, batches, j);
        assert !ErpBatchFits(shapes, batches, j);
        return Some(SOURCE_MALFORMED);
      }
      recordIds := ids;
    }
    forall j | 0 <= j < |batches| ensures !ErpPartialAt(shapes, batches, j) {
      assert ErpBatchFits(shapes, batches, j);
    }
    r := None;
  }

  // ---------------------------------------------------------------- no record twice

  ghost predicate DistinctIds<F>(records: seq<SourceRecord<F>>) {
    forall i, j | 0 <= i < j < |records| :: records[i].sourceRecordId != records[j].sourceRecordId
  }

  ghost predicate AllNew<F>(batches: seq<Batch<SourceRecord<F>>>) {
    forall j, m | 0 <= j < |batches| && 0 <= m < |batches[j].records| :: NewId(batches, j, m)
  }

  lemma {:induction false} RecordComesFrom<F>(batches: seq<Batch<SourceRecord<F>>>, e: Entity, x: SourceRecord<F>)
    returns (i: nat, n: nat)
    requires x in Records(batches, e)
    ensures i < |batches| && n < |batches[i].records| && batches[i].records[n] == x
  {
    if batches[0].entity == e && x in batches[0].records {
      i := 0;
      n :| 0 <= n < |batches[0].records| && batches[0].records[n] == x;
    } else {
      i, n := RecordComesFrom(batches[1..], e, x);
      i := i + 1;
    }
  }

  lemma TailAllNew<F>(batches: seq<Batch<SourceRecord<F>>>)
    requires batches != [] && AllNew(batches)
    ensures AllNew(batches[1..])
  {
    var tail := batches[1..];
    forall j, m | 0 <= j < |tail| && 0 <= m < |tail[j].records| ensures NewId(tail, j, m) {
      assert NewId(batches, j + 1, m);
      forall i, n | 0 <= i < |tail| && 0 <= n < |tail[i].records| && Before(i, n, j, m)
        ensures IdAt(tail, i, n) != IdAt(tail, j, m)
      {
        assert Before(i + 1, n, j + 1, m);
        assert IdAt(batches, i + 1, n) != IdAt(batches, j + 1, m);
      }
    }
  }

  lemma HeadDiffers<F>(batches: seq<Batch<SourceRecord<F>>>, e: Entity, n: nat, x: SourceRecord<F>)
    requires batches != [] && AllNew(batches) && n < |batches[0].records| && x in Records(batches[1..], e)
    ensures batches[0].records[n].sourceRecordId != x.sourceRecordId
  {
    var i, m := RecordComesFrom(batches[1..], e, x);
    assert NewId(batches, i + 1, m);
    assert Before(0, n, i + 1, m);
    assert IdAt(batches, 0, n) != IdAt(batches, i + 1, m);
  }

  lemma HeadDistinct<F>(batches: seq<Batch<SourceRecord<F>>>)
    requires batches != [] && AllNew(batches)
    ensures DistinctIds(batches[0].records)
  {
    var records := batches[0].records;
    forall i, j | 0 <= i < j < |records| ensures records[i].sourceRecordId != records[j].sourceRecordId {
      assert NewId(batches, 0, j) && Before(0, i, 0, j);
      assert IdAt(batches, 0, i) != IdAt(batches, 0, j);
    }
  }

  lemma DistinctSum<F>(a: seq<SourceRecord<F>>, b: seq<SourceRecord<F>>)
    requires DistinctIds(a) && DistinctIds(b)
    requires forall i, x | 0 <= i < |a| && x in b :: a[i].sourceRecordId != x.sourceRecordId
    ensures DistinctIds(a + b)
  {}

  lemma {:induction false} RecordsDistinct<F>(batches: seq<Batch<SourceRecord<F>>>, e: Entity)
    requires AllNew(batches)
    ensures DistinctIds(Records(batches, e))
  {
    if batches != [] {
      TailAllNew(batches);
      RecordsDistinct(batches[1..], e);
      HeadDistinct(batches);
      forall i, x | 0 <= i < |batches[0].records| && x in Records(batches[1..], e)
        ensures batches[0].records[i].sourceRecordId != x.sourceRecordId
      {
        HeadDiffers(batches, e, i, x);
      }
      if batches[0].entity == e {
        DistinctSum(batches[0].records, Records(batches[1..], e));
      }
    }
  }

  /** A walk over an entity of an accepted ERP source sees no source record id twice. */
  lemma AcceptedErpWalk<F>(shapes: Shapes<F>, k: Setup<SourceRecord<F>>, turns: seq<Turn>, e: Entity)
    requires k.connector == ERP && Admits(k) && e in Entities(ERP)
    requires forall j | 0 <= j < |k.batches| :: ErpBatchFits(shapes, k.batches, j)
    requires forall i | 0 <= i < |turns| :: AllowedTurn(ERP, turns[i])
    ensures var s := TakeTurns(k, turns);
      e in s.walkers && DistinctIds(s.walkers[e].seen)
  {
    forall j, m | 0 <= j < |k.batches| && 0 <= m < |k.batches[j].records| ensures NewId(k.batches, j, m) {
      assert ErpBatchFits(shapes, k.batches, j) && EntryFits(shapes, k.batches, j, m);
    }
    RecordsDistinct(k.batches, e);
    WalksOnTrack(k, turns, e);
    assert OnTrack(k, e, TakeTurns(k, turns).walkers[e]);
  }
}
