/** The read adapters of the two business connectors: pages of one entity's records, and cursors that
    are accepted once. The walks over different entities may share an adapter and interleave. */
module ReadConnector {
  import opened Options
  import opened Sequences
  import opened Text
  import opened ReadCursor

  datatype Denial =
    | CONNECTOR_DISABLED | CREDENTIAL_MISSING | OPERATION_DENIED | MUTATION_DENIED | DATABASE_ACCESS_DENIED
    | TENANT_MISMATCH | SCOPE_DENIED | FIELD_DENIED | REQUEST_MALFORMED | SOURCE_MALFORMED | SOURCE_STALE
    | SOURCE_PARTIAL | CURSOR_REPLAYED | CURSOR_STALE

  datatype Batch<R> = Batch(batchId: string, entity: Entity, sequence: int, complete: bool, records: seq<R>)

  datatype Request = Request(entity: Entity, pageSize: int, cursor: Option<Text>)

  datatype Reply<R> = Denied(code: Denial) | Read(entity: Entity, records: seq<R>, nextCursor: Option<Text>)

  /** One adapter: its source, and what the checks say that neither read nor change its memory. before
      stands for identity, operation, scope and fields; source for the validity and age of the source. */
  datatype Setup<R> = Setup(connector: Connector, tag: Text, batches: seq<Batch<R>>,
                            before: Request -> Option<Denial>, source: Option<Denial>)

  const MAX_PAGE_SIZE := 2

  /** The records of an entity, batch after batch. */
  function Records<R>(batches: seq<Batch<R>>, e: Entity): seq<R> {
    if batches == [] then []
    else (if batches[0].entity == e then batches[0].records else []) + Records(batches[1..], e)
  }

  function At<R>(k: Setup<R>, e: Entity, offset: nat): Text {
    PrintCursor(k.connector, Cursor(k.tag, e, offset))
  }

  function Min(a: int, b: int): int {
    if a < b then a else b
  }

  function Page<R>(k: Setup<R>, e: Entity, offset: nat, size: nat): Reply<R> {
    var all := Records(k.batches, e);
    var page := all[Min(offset, |all|)..Min(offset + size, |all|)];
    var next := offset + |page|;
    Read(e, page, if next < |all| then Some(At(k, e, next)) else None)
  }

  /** A request against the cursors consumed so far. */
  function Served<R>(k: Setup<R>, consumed: set<Text>, r: Request): (set<Text>, Reply<R>) {
    if k.before(r).Some? then (consumed, Denied(k.before(r).value))
    else if !(1 <= r.pageSize <= MAX_PAGE_SIZE) then (consumed, Denied(REQUEST_MALFORMED))
    else if k.source.Some? then (consumed, Denied(k.source.value))
    else if r.cursor.None? then (consumed, Page(k, r.entity, 0, r.pageSize))
    else
      var text := r.cursor.value;
      if text in consumed then (consumed, Denied(CURSOR_REPLAYED))
      else
        var c := ParseCursor(k.connector, text);
        if c.None? || c.value.tag != k.tag || c.value.entity != r.entity then (consumed, Denied(CURSOR_STALE))
        else (consumed + {text}, Page(k, r.entity, c.value.offset, r.pageSize))
  }

  class ReadAdapter<R> {
    const setup: Setup<R>
    var consumed: set<Text>

    constructor (setup: Setup<R>)
      ensures this.setup == setup && consumed == {}
    {
      this.setup, consumed := setup, {};
    }

    method Serve(r: Request) returns (reply: Reply<R>)
      modifies this
      ensures (consumed, reply) == Served(setup, old(consumed), r)
    {
      var denial := setup.before(r);
      if denial.Some? {
        return Denied(denial.value);
      }
      if r.pageSize < 1 || r.pageSize > MAX_PAGE_SIZE {
        return Denied(REQUEST_MALFORMED);
      }
      if setup.source.Some? {
        return Denied(setup.source.value);
      }
      var offset := 0;
      if r.cursor.Some? {
        if r.cursor.value in consumed {
          return Denied(CURSOR_REPLAYED);
        }
        var c := ParseCursor(setup.connector, r.cursor.value);
        if c.None? || c.value.tag != setup.tag || c.value.entity != r.entity {
          return Denied(CURSOR_STALE);
        }
        offset := c.value.offset;
        consumed := consumed + {r.cursor.value};
      }
      reply := Page(setup, r.entity, offset, r.pageSize);
    }
  }

  // ---------------------------------------------------------------- any requests

  function Consumed<R>(k: Setup<R>, requests: seq<Request>): set<Text> {
    if requests == [] then {}
    else Served(k, Consumed(k, requests[..|requests| - 1]), requests[|requests| - 1]).0
  }

  /** The request in place i is answered, on an adapter fresh at the start. */
  predicate Accepted<R>(k: Setup<R>, requests: seq<Request>, i: nat)
    requires i < |requests|
  {
    Served(k, Consumed(k, requests[..i]), requests[i]).1.Read?
  }

  lemma ServedConsumes<R>(k: Setup<R>, consumed: set<Text>, r: Request, text: Text)
    ensures var (after, reply) := Served(k, consumed, r);
      text in after <==> text in consumed || (r.cursor == Some(text) && reply.Read?)
  {}

  /** The request in place i is answered, and its cursor is this text. */
  predicate AcceptsText<R>(k: Setup<R>, requests: seq<Request>, i: nat, text: Text)
    requires i < |requests|
  {
    requests[i].cursor == Some(text) && Accepted(k, requests, i)
  }

  lemma {:induction false} ConsumedWasAccepted<R>(k: Setup<R>, requests: seq<Request>, text: Text) returns (i: nat)
    requires text in Consumed(k, requests)
    ensures i < |requests| && AcceptsText(k, requests, i, text)
  {
    var n := |requests| - 1;
    ServedConsumes(k, Consumed(k, requests[..n]), requests[n], text);
    if text in Consumed(k, requests[..n]) {
      i := ConsumedWasAccepted(k, requests[..n], text);
      TakeTake(requests, i, n);
    } else {
      i := n;
    }
  }

  lemma {:induction false} AcceptedIsConsumed<R>(k: Setup<R>, requests: seq<Request>, i: nat, text: Text)
    requires i < |requests| && AcceptsText(k, requests, i, text)
    ensures text in Consumed(k, requests)
  {
    var n := |requests| - 1;
    ServedConsumes(k, Consumed(k, requests[..n]), requests[n], text);
    if i < n {
      TakeTake(requests, i, n);
      AcceptedIsConsumed(k, requests[..n], i, text);
    }
  }

  /** The cursors refused as replayed are exactly those accepted before. */
  lemma ConsumedExactly<R>(k: Setup<R>, requests: seq<Request>, text: Text)
    ensures text in Consumed(k, requests) <==> exists i | 0 <= i < |requests| :: AcceptsText(k, requests, i, text)
  {
    if text in Consumed(k, requests) {
      var i := ConsumedWasAccepted(k, requests, text);
    }
    forall i | 0 <= i < |requests| && AcceptsText(k, requests, i, text) ensures text in Consumed(k, requests) {
      AcceptedIsConsumed(k, requests, i, text);
    }
  }

  /** Every cursor text is accepted at most once. */
  lemma CursorAcceptedOnce<R>(k: Setup<R>, requests: seq<Request>, i: nat, j: nat)
    requires i < j < |requests| && requests[i].cursor.Some? && requests[i].cursor == requests[j].cursor
    requires Accepted(k, requests, i)
    ensures !Accepted(k, requests, j)
  {
    TakeTake(requests, i, j);
    assert AcceptsText(k, requests[..j], i, requests[i].cursor.value);
    ConsumedExactly(k, requests[..j], requests[i].cursor.value);
  }

  // ---------------------------------------------------------------- pages read by cursor

  /** The request gets as far as its cursor, and this is the page the cursor stands for. */
  predicate Presents<R>(k: Setup<R>, r: Request, c: Cursor) {
    && k.before(r).None? && 1 <= r.pageSize <= MAX_PAGE_SIZE && k.source.None?
    && r.cursor.Some? && ParseCursor(k.connector, r.cursor.value) == Some(c)
    && c.tag == k.tag && c.entity == r.entity
  }

  /** The request in place i reads this page. */
  predicate ReadsPage<R>(k: Setup<R>, requests: seq<Request>, i: nat, c: Cursor)
    requires i < |requests|
  {
    Presents(k, requests[i], c) && Accepted(k, requests, i)
  }

  lemma ServedAccepts<R>(k: Setup<R>, consumed: set<Text>, r: Request, c: Cursor)
    requires Presents(k, r, c)
    ensures var text := r.cursor.value;
      Served(k, consumed, r) == if text in consumed then (consumed, Denied(CURSOR_REPLAYED))
                                else (consumed + {text}, Page(k, r.entity, c.offset, r.pageSize))
  {}

  /** A request that presents a page is served exactly when its cursor text was not accepted before. */
  lemma PresentedAcceptedExactly<R>(k: Setup<R>, requests: seq<Request>, j: nat, c: Cursor)
    requires j < |requests| && Presents(k, requests[j], c)
    ensures Accepted(k, requests, j)
       <==> forall i | 0 <= i < j :: !AcceptsText(k, requests, i, requests[j].cursor.value)
  {
    var text := requests[j].cursor.value;
    ServedAccepts(k, Consumed(k, requests[..j]), requests[j], c);
    ConsumedExactly(k, requests[..j], text);
    forall i | 0 <= i < j ensures AcceptsText(k, requests[..j], i, text) == AcceptsText(k, requests, i, text) {
      TakeTake(requests, i, j);
    }
  }

  lemma AcceptsSamePage<R>(k: Setup<R>, requests: seq<Request>, i: nat, text: Text, c: Cursor)
    requires i < |requests| && AcceptsText(k, requests, i, text)
    requires ParseCursor(k.connector, text) == Some(c)
    ensures ReadsPage(k, requests, i, c)
  {}

  /** Some request up to j accepts the text that the request in place j presents. */
  lemma PresentedOnceRead<R>(k: Setup<R>, requests: seq<Request>, j: nat, c: Cursor) returns (i: nat)
    requires j < |requests| && Presents(k, requests[j], c)
    ensures i < |requests| && ReadsPage(k, requests, i, c) && requests[i].cursor == requests[j].cursor
  {
    PresentedAcceptedExactly(k, requests, j, c);
    if Accepted(k, requests, j) {
      i := j;
    } else {
      i :| 0 <= i < j && AcceptsText(k, requests, i, requests[j].cursor.value);
      AcceptsSamePage(k, requests, i, requests[j].cursor.value, c);
    }
  }

  ghost predicate ReadTwice<R>(k: Setup<R>, requests: seq<Request>, c: Cursor) {
    exists i, j :: 0 <= i < j < |requests| && ReadsPage(k, requests, i, c) && ReadsPage(k, requests, j, c)
  }

  /** Two requests present the page in different texts. */
  ghost predicate SpelledTwice<R>(k: Setup<R>, requests: seq<Request>, c: Cursor) {
    exists i, j :: && 0 <= i < j < |requests| && Presents(k, requests[i], c) && Presents(k, requests[j], c)
                   && requests[i].cursor != requests[j].cursor
  }

  lemma ReadTwiceSpelledTwice<R>(k: Setup<R>, requests: seq<Request>, c: Cursor)
    requires ReadTwice(k, requests, c)
    ensures SpelledTwice(k, requests, c)
  {
    var i, j :| 0 <= i < j < |requests| && ReadsPage(k, requests, i, c) && ReadsPage(k, requests, j, c);
    if requests[i].cursor == requests[j].cursor {
      CursorAcceptedOnce(k, requests, i, j);
    }
  }

  lemma SpelledTwiceReadTwice<R>(k: Setup<R>, requests: seq<Request>, c: Cursor)
    requires SpelledTwice(k, requests, c)
    ensures ReadTwice(k, requests, c)
  {
    var i, j :| && 0 <= i < j < |requests| && Presents(k, requests[i], c) && Presents(k, requests[j], c)
                && requests[i].cursor != requests[j].cursor;
    var m := PresentedOnceRead(k, requests, i, c);
    var n := PresentedOnceRead(k, requests, j, c);
    var first, second := if m < n then m else n, if m < n then n else m;
    assert ReadsPage(k, requests, first, c) && ReadsPage(k, requests, second, c);
  }

  /** In any run a page is read by cursor twice exactly when it is asked for in two spellings. */
  lemma PageReadTwiceExactly<R>(k: Setup<R>, requests: seq<Request>, c: Cursor)
    ensures ReadTwice(k, requests, c) <==> SpelledTwice(k, requests, c)
  {
    if ReadTwice(k, requests, c) {
      ReadTwiceSpelledTwice(k, requests, c);
    }
    if SpelledTwice(k, requests, c) {
      SpelledTwiceReadTwice(k, requests, c);
    }
  }

  /** The request carries no cursor but one as the adapters print it. */
  predicate AsPrinted(k: Connector, r: Request) {
    r.cursor.Some? ==>
      match ParseCursor(k, r.cursor.value)
      case None => true
      case Some(c) => r.cursor.value == PrintCursor(k, c)
  }

  /** A client that only presents cursors as printed reads no page by cursor twice. */
  lemma PrintedCursorsReadOnce<R>(k: Setup<R>, requests: seq<Request>, c: Cursor)
    requires forall i | 0 <= i < |requests| :: AsPrinted(k.connector, requests[i])
    ensures !ReadTwice(k, requests, c)
  {
    PageReadTwiceExactly(k, requests, c);
    forall i | 0 <= i < |requests| && Presents(k, requests[i], c)
      ensures requests[i].cursor == Some(PrintCursor(k.connector, c))
    {
      assert AsPrinted(k.connector, requests[i]);
    }
  }

  lemma BothRead<R>(k: Setup<R>, first: Request, second: Request, c: Cursor)
    requires Presents(k, first, c) && Presents(k, second, c) && first.cursor != second.cursor
    ensures ReadTwice(k, [first, second], c)
  {
    var requests := [first, second];
    assert requests[0] == first && requests[1] == second;
    SpelledTwiceReadTwice(k, requests, c);
  }

  /** But a client can: a cursor and the same cursor with a leading zero both read the page. */
  lemma PageReadTwice<R>(k: Setup<R>, e: Entity, offset: nat, size: int)
    requires Admits(k) && e in Entities(k.connector) && 1 <= size <= MAX_PAGE_SIZE
    ensures var again := Spell(k.connector, k.tag, e, [48] + PrintNat(offset));
      ReadTwice(k, [Request(e, size, Some(At(k, e, offset))), Request(e, size, Some(again))], Cursor(k.tag, e, offset))
  {
    var c := Cursor(k.tag, e, offset);
    CursorRoundTrip(k.connector, c);
    LeadingZero(k.connector, c);
    BothRead(k, Request(e, size, Some(At(k, e, offset))),
             Request(e, size, Some(Spell(k.connector, k.tag, e, [48] + PrintNat(offset)))), c);
  }

  // ---------------------------------------------------------------- walks

  /** Requests for the connector's own entities with an allowed page size get as far as the cursor. */
  ghost predicate Admits<R>(k: Setup<R>) {
    && IsTag(k.tag)
    && k.source.None?
    && forall r: Request | r.entity in Entities(k.connector) && 1 <= r.pageSize <= MAX_PAGE_SIZE :: k.before(r).None?
  }

  /** A client following nextCursor over one entity. */
  datatype Walker<R> = Walker(seen: seq<R>, cursor: Option<Text>, done: bool)

  datatype Walks<R> = Walks(consumed: set<Text>, walkers: map<Entity, Walker<R>>, refusals: nat)

  /** The walker of an entity asks for its next page, or somebody asks for a first page. */
  datatype Turn = Follow(entity: Entity, pageSize: int) | FirstPage(entity: Entity, pageSize: int)

  predicate AllowedTurn(k: Connector, t: Turn) {
    t.entity in Entities(k) && 1 <= t.pageSize <= MAX_PAGE_SIZE
  }

  function Advance<R>(w: Walker<R>, reply: Reply<R>): Walker<R> {
    match reply
    case Denied(_) => w
    case Read(_, records, next) => Walker(w.seen + records, next, next.None?)
  }

  function Take<R>(k: Setup<R>, s: Walks<R>, t: Turn): Walks<R>
    requires t.entity in s.walkers
  {
    match t
    case FirstPage(e, size) =>
      var (consumed, reply) := Served(k, s.consumed, Request(e, size, None));
      Walks(consumed, s.walkers, s.refusals + if reply.Denied? then 1 else 0)
    case Follow(e, size) =>
      if s.walkers[e].done then s
      else
        var (consumed, reply) := Served(k, s.consumed, Request(e, size, s.walkers[e].cursor));
        Walks(consumed, s.walkers[e := Advance(s.walkers[e], reply)], s.refusals + if reply.Denied? then 1 else 0)
  }

  function Fresh<R>(k: Setup<R>): Walks<R> {
    Walks({}, map e | e in Entities(k.connector) :: Walker([], None, false), 0)
  }

  function TakeTurns<R>(k: Setup<R>, turns: seq<Turn>): (s: Walks<R>)
    requires forall i | 0 <= i < |turns| :: AllowedTurn(k.connector, turns[i])
    ensures forall e | e in Entities(k.connector) :: e in s.walkers
  {
    if turns == [] then Fresh(k)
    else
      var t := turns[|turns| - 1];
      assert AllowedTurn(k.connector, t);
      Take(k, TakeTurns(k, turns[..|turns| - 1]), t)
  }

  /** How far a walker is, and that it saw every record so far once and in order. */
  ghost predicate OnTrack<R>(k: Setup<R>, e: Entity, w: Walker<R>) {
    var all := Records(k.batches, e);
    && |w.seen| <= |all| && w.seen == all[..|w.seen|]
    && (w.done ==> w.seen == all)
    && (!w.done && w.seen == [] ==> w.cursor.None?)
    && (!w.done && w.seen != [] ==> w.cursor == Some(At(k, e, |w.seen|)) && |w.seen| < |all|)
  }

  /** A consumed cursor is one its entity's walker has passed. */
  ghost predicate Passed<R>(k: Setup<R>, walkers: map<Entity, Walker<R>>, text: Text) {
    var c := ParseCursor(k.connector, text);
    c.Some? && c.value.entity in walkers && c.value.offset < |walkers[c.value.entity].seen|
  }

  ghost predicate Sound<R>(k: Setup<R>, s: Walks<R>) {
    && s.refusals == 0
    && (forall e | e in s.walkers :: e in Entities(k.connector) && OnTrack(k, e, s.walkers[e]))
    && (forall text | text in s.consumed :: Passed(k, s.walkers, text))
  }

  lemma PageContinues<R>(k: Setup<R>, e: Entity, w: Walker<R>, size: int)
    requires OnTrack(k, e, w) && !w.done && 1 <= size <= MAX_PAGE_SIZE
    ensures var w' := Advance(w, Page(k, e, |w.seen|, size));
      OnTrack(k, e, w') && |w.seen| <= |w'.seen| && (w'.done || |w.seen| < |w'.seen|)
      && (w.cursor.Some? ==> |w.seen| < |w'.seen|)
  {
    var all := Records(k.batches, e);
    var n, m := |w.seen|, Min(|w.seen| + size, |all|);
    TakeMore(all, n, m);
    TakeAll(all);
  }

  lemma FollowServed<R>(k: Setup<R>, s: Walks<R>, e: Entity, size: int)
    requires Admits(k) && Sound(k, s) && e in s.walkers && !s.walkers[e].done && 1 <= size <= MAX_PAGE_SIZE
    ensures var w := s.walkers[e];
      Served(k, s.consumed, Request(e, size, w.cursor))
        == (if w.cursor.Some? then s.consumed + {w.cursor.value} else s.consumed, Page(k, e, |w.seen|, size))
  {
    var w := s.walkers[e];
    assert OnTrack(k, e, w);
    if w.cursor.Some? {
      CursorRoundTrip(k.connector, Cursor(k.tag, e, |w.seen|));
      assert !Passed(k, s.walkers, w.cursor.value);
    }
  }

  lemma PassedStays<R>(k: Setup<R>, walkers: map<Entity, Walker<R>>, e: Entity, w: Walker<R>, text: Text)
    requires Passed(k, walkers, text) && (e in walkers ==> |walkers[e].seen| <= |w.seen|)
    ensures Passed(k, walkers[e := w], text)
  {}

  lemma FollowKeepsSound<R>(k: Setup<R>, s: Walks<R>, e: Entity, size: int)
    requires Admits(k) && Sound(k, s) && e in s.walkers && 1 <= size <= MAX_PAGE_SIZE
    ensures var s' := Take(k, s, Follow(e, size));
      && Sound(k, s') && s'.walkers.Keys == s.walkers.Keys
      && (s'.walkers[e].done || |s.walkers[e].seen| < |s'.walkers[e].seen|)
  {
    if !s.walkers[e].done {
      var w := s.walkers[e];
      assert OnTrack(k, e, w);
      FollowServed(k, s, e, size);
      PageContinues(k, e, w, size);
      var s' := Take(k, s, Follow(e, size));
      forall text | text in s'.consumed ensures Passed(k, s'.walkers, text) {
        if text in s.consumed {
          PassedStays(k, s.walkers, e, s'.walkers[e], text);
        } else {
          CursorRoundTrip(k.connector, Cursor(k.tag, e, |w.seen|));
        }
      }
    }
  }

  lemma FirstPageKeepsSound<R>(k: Setup<R>, s: Walks<R>, e: Entity, size: int)
    requires Admits(k) && Sound(k, s) && e in s.walkers && AllowedTurn(k.connector, FirstPage(e, size))
    ensures Take(k, s, FirstPage(e, size)) == s
  {}

  lemma FollowLeavesOthers<R>(k: Setup<R>, s: Walks<R>, e: Entity, size: int, other: Entity)
    requires e in s.walkers && other in s.walkers && other != e
    ensures var s' := Take(k, s, Follow(e, size)); other in s'.walkers && s'.walkers[other] == s.walkers[other]
  {}

  /** The turn is one of the walker of this entity. */
  predicate FollowsOn(t: Turn, e: Entity) {
    t.Follow? && t.entity == e
  }

  function Follows(turns: seq<Turn>, e: Entity): nat {
    if turns == [] then 0
    else Follows(turns[..|turns| - 1], e) + if FollowsOn(turns[|turns| - 1], e) then 1 else 0
  }

  lemma TakeKeepsSound<R>(k: Setup<R>, s: Walks<R>, t: Turn, e: Entity)
    requires Admits(k) && Sound(k, s) && e in s.walkers && t.entity in s.walkers && AllowedTurn(k.connector, t)
    ensures Sound(k, Take(k, s, t)) && Take(k, s, t).walkers.Keys == s.walkers.Keys
    ensures s.walkers[e].done ==> Take(k, s, t).walkers[e] == s.walkers[e]
    ensures var w, w' := s.walkers[e], Take(k, s, t).walkers[e];
      w'.done || |w'.seen| >= |w.seen| + if FollowsOn(t, e) then 1 else 0
  {
    match t
    case FirstPage(_, size) => FirstPageKeepsSound(k, s, t.entity, size);
    case Follow(_, size) =>
      FollowKeepsSound(k, s, t.entity, size);
      if t.entity != e {
        FollowLeavesOthers(k, s, t.entity, size, e);
      }
  }

  /** In any interleaving nobody is refused, every walker has seen a prefix of its records, each once and
      in batch order, and each of its turns takes it further until it is done. */
  lemma {:induction false} WalksOnTrack<R>(k: Setup<R>, turns: seq<Turn>, e: Entity)
    requires Admits(k) && e in Entities(k.connector)
    requires forall i | 0 <= i < |turns| :: AllowedTurn(k.connector, turns[i])
    ensures var s := TakeTurns(k, turns);
      && Sound(k, s) && e in s.walkers
      && (s.walkers[e].done || Follows(turns, e) <= |s.walkers[e].seen|)
  {
    if turns != [] {
      var n := |turns| - 1;
      WalksOnTrack(k, turns[..n], e);
      assert AllowedTurn(k.connector, turns[n]);
      TakeKeepsSound(k, TakeTurns(k, turns[..n]), turns[n], e);
    }
  }

  /** Following nextCursor ends, after at most as many pages as there are records, with every record of
      the entity seen exactly once in batch order, whatever page sizes are mixed and whatever walks over
      other entities do in between. */
  lemma WalkCompletes<R>(k: Setup<R>, turns: seq<Turn>, e: Entity)
    requires Admits(k) && e in Entities(k.connector) && forall i | 0 <= i < |turns| :: AllowedTurn(k.connector, turns[i])
    requires Follows(turns, e) >= |Records(k.batches, e)| && Follows(turns, e) > 0
    ensures var s := TakeTurns(k, turns);
      e in s.walkers && s.refusals == 0 && s.walkers[e].done && s.walkers[e].seen == Records(k.batches, e)
  {
    WalksOnTrack(k, turns, e);
    var w := TakeTurns(k, turns).walkers[e];
    assert OnTrack(k, e, w);
  }
}
