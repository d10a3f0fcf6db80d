/** Historical routing baselines: normalized episodes, their totals per cohort, and the baseline that
    is computed from them without regard to their order. */
module RoutingBaseline {
  import opened Options
  import opened Sequences
  import Sorting
  import opened Sums
  import opened WilsonInterval

  datatype RouteClass = STATIC | CURRENT | CHEAP | STRONG

  datatype Source = AUGUST_CANARY | PUBLIC_ISSUE_41 | PUBLIC_ISSUE_58 | SANITIZED_SYNTHETIC

  datatype Disposition =
    VERIFIED_RESOLVED | NOT_RESOLVED | ABORTED | DENIED | CENSORED | UNKNOWN | INSUFFICIENT_EVIDENCE

  datatype Transport = NOT_SENT | CONFIRMED | FAILED | TRANSPORT_UNKNOWN | RECONCILED

  datatype Usage = Usage(
    calls: nat, repairs: nat, retries: nat, scoutCalls: nat, testRuns: nat, ciRuns: nat, reviewMinutes: nat,
    elapsedMs: nat, actualReceiptCostMicros: Option<nat>, priceAssumptionCostMicros: nat,
    unknownTransportReserveMicros: nat)

  datatype Episode = Episode(
    pseudonym: string, source: Source, routeClass: RouteClass, versions: string, disposition: Disposition,
    evidenceComplete: bool, transport: Transport, usage: Usage)

  datatype Normalized = Normalized(
    episode: Episode, disposition: Disposition, verifiedSuccess: bool, billedCostMicros: nat,
    reservedCostMicros: nat, totalCostMicros: nat)

  datatype Totals = Totals(
    billedCostMicros: int, reservedCostMicros: int, totalCostMicros: int, elapsedMs: int, calls: int, repairs: int,
    retries: int, scoutCalls: int, testRuns: int, ciRuns: int, reviewMinutes: int)
  {
    function Plus(t: Totals): Totals {
      Totals(billedCostMicros + t.billedCostMicros, reservedCostMicros + t.reservedCostMicros,
             totalCostMicros + t.totalCostMicros, elapsedMs + t.elapsedMs, calls + t.calls, repairs + t.repairs,
             retries + t.retries, scoutCalls + t.scoutCalls, testRuns + t.testRuns, ciRuns + t.ciRuns,
             reviewMinutes + t.reviewMinutes)
    }
  }

  datatype Missingness = Missingness(incompleteEvidence: nat, unknownTransport: nat, missingActualReceiptCost: nat,
                                     censored: nat)
  {
    function Plus(m: Missingness): Missingness {
      Missingness(incompleteEvidence + m.incompleteEvidence, unknownTransport + m.unknownTransport,
                  missingActualReceiptCost + m.missingActualReceiptCost, censored + m.censored)
    }
  }

  datatype Confidence = LOW | MEDIUM | HIGH

  datatype Effort = Effort(calls: Option<int>, repairs: Option<int>, retries: Option<int>, scoutCalls: Option<int>,
                           testRuns: Option<int>, ciRuns: Option<int>, reviewMinutes: Option<int>)

  datatype Metrics = Metrics(
    episodeCount: nat, verifiedSuccesses: nat, vsrPpm: int, vsrWilson95Ppm: Interval, ecvrMicros: Option<int>,
    etvrMs: Option<int>, effort: Effort, totals: Totals, missingness: Missingness, confidence: Confidence)

  datatype ByRouteClass = ByRouteClass(static_: Metrics, current: Metrics, cheap: Metrics, strong: Metrics)

  datatype SourceCoverage = SourceCoverage(augustCanary: nat, publicIssue41: nat, publicIssue58: nat,
                                           sanitizedSynthetic: nat)

  datatype Baseline = Baseline(
    episodeDigests: seq<string>, cohortDigest: string, versionDigest: string, overall: Metrics,
    byRouteClass: ByRouteClass, sourceCoverage: SourceCoverage)

  datatype Failure = INVALID_HISTORICAL_ROUTING_EPISODE | DUPLICATE_HISTORICAL_EPISODE

  /** The shape test, the square root, the order of pseudonyms and the hashes. The versions of an episode
      are their canonical text; a set of them is hashed sorted and without repetitions. */
  datatype Env = Env(valid: Episode -> bool, sqrt: real -> real, leq: (string, string) -> bool,
                     digestEpisode: Normalized -> string, digestCohort: seq<string> -> string,
                     digestVersions: set<string> -> string)

  // ---------------------------------------------------------------- one episode

  function Normalize(e: Episode): Normalized {
    var disposition :=
      if e.disposition.VERIFIED_RESOLVED? && !e.evidenceComplete then INSUFFICIENT_EVIDENCE else e.disposition;
    var receipt := e.usage.actualReceiptCostMicros;
    var billed := if receipt.Some? then receipt.value else e.usage.priceAssumptionCostMicros;
    var reserved :=
      if e.transport.TRANSPORT_UNKNOWN? && receipt.None? then e.usage.unknownTransportReserveMicros else 0;
    Normalized(e, disposition, disposition.VERIFIED_RESOLVED?, billed, reserved, billed + reserved)
  }

  /** A success is complete evidence of a resolution, money is reserved only while a receipt is missing,
      and what is billed and what is reserved make up the total. */
  lemma NormalizeMeans(e: Episode)
    ensures var n := Normalize(e);
      && (n.verifiedSuccess <==> e.disposition.VERIFIED_RESOLVED? && e.evidenceComplete)
      && n.billedCostMicros + n.reservedCostMicros == n.totalCostMicros
      && (n.reservedCostMicros > 0 ==> e.transport.TRANSPORT_UNKNOWN? && e.usage.actualReceiptCostMicros.None?)
      && (e.usage.actualReceiptCostMicros.Some? ==> n.totalCostMicros == e.usage.actualReceiptCostMicros.value)
  {}

  // ---------------------------------------------------------------- a cohort

  function Count<T(!new)>(p: T -> bool, s: seq<T>): nat {
    |Filter(p, s)|
  }

  function PerSuccess(value: int, successes: nat): Option<int> {
    if successes == 0 then None else Some(Round(value as real * 1000.0 / successes as real))
  }

  function Billed(n: Normalized): int { n.billedCostMicros }

  function ReservedCost(n: Normalized): int { n.reservedCostMicros }

  function TotalCost(n: Normalized): int { n.totalCostMicros }

  function ElapsedMs(n: Normalized): int { n.episode.usage.elapsedMs }

  function Calls(n: Normalized): int { n.episode.usage.calls }

  function Repairs(n: Normalized): int { n.episode.usage.repairs }

  function Retries(n: Normalized): int { n.episode.usage.retries }

  function ScoutCalls(n: Normalized): int { n.episode.usage.scoutCalls }

  function TestRuns(n: Normalized): int { n.episode.usage.testRuns }

  function CiRuns(n: Normalized): int { n.episode.usage.ciRuns }

  function ReviewMinutes(n: Normalized): int { n.episode.usage.reviewMinutes }

  /** The record of all totals, from a way to add up one quantity. */
  function TotalsBy(total: (Normalized -> int) -> int): Totals {
    Totals(total(Billed), total(ReservedCost), total(TotalCost), total(ElapsedMs), total(Calls), total(Repairs),
           total(Retries), total(ScoutCalls), total(TestRuns), total(CiRuns), total(ReviewMinutes))
  }

  function SumOver(s: seq<Normalized>): (Normalized -> int) -> int {
    (select: Normalized -> int) => Sum(select, s)
  }

  function TotalsOf(s: seq<Normalized>): Totals {
    TotalsBy(SumOver(s))
  }

  predicate Incomplete(n: Normalized) { !n.episode.evidenceComplete }

  predicate UnknownTransport(n: Normalized) { n.episode.transport.TRANSPORT_UNKNOWN? }

  predicate MissingReceipt(n: Normalized) { n.episode.usage.actualReceiptCostMicros.None? }

  predicate Censored(n: Normalized) { n.disposition.CENSORED? }

  predicate Succeeded(n: Normalized) { n.verifiedSuccess }

  function MissingnessBy(count: (Normalized -> bool) -> nat): Missingness {
    Missingness(count(Incomplete), count(UnknownTransport), count(MissingReceipt), count(Censored))
  }

  function CountOver(s: seq<Normalized>): (Normalized -> bool) -> nat {
    (p: Normalized -> bool) => Count(p, s)
  }

  function MissingnessOf(s: seq<Normalized>): Missingness {
    MissingnessBy(CountOver(s))
  }

  function ConfidenceOf(episodes: nat, incomplete: nat, unknown: nat): Confidence {
    var completeRatio := if episodes == 0 then 0.0 else (episodes - incomplete - unknown) as real / episodes as real;
    if episodes >= 24 && completeRatio == 1.0 then HIGH
    else if episodes >= 12 && completeRatio >= 0.8 then MEDIUM
    else LOW
  }

  function MetricsOf(sqrt: real -> real, s: seq<Normalized>): Metrics {
    var wins, t, m := Count(Succeeded, s), TotalsOf(s), MissingnessOf(s);
    Metrics(|s|, wins, RatePpm(wins, |s|), Wilson95(sqrt, wins, |s|),
            if wins == 0 then None else Some(Round(t.totalCostMicros as real / wins as real)),
            if wins == 0 then None else Some(Round(t.elapsedMs as real / wins as real)),
            Effort(PerSuccess(t.calls, wins), PerSuccess(t.repairs, wins), PerSuccess(t.retries, wins),
                   PerSuccess(t.scoutCalls, wins), PerSuccess(t.testRuns, wins), PerSuccess(t.ciRuns, wins),
                   PerSuccess(t.reviewMinutes, wins)),
            t, m, ConfidenceOf(|s|, m.incompleteEvidence, m.unknownTransport))
  }

  function InClass(c: RouteClass): Normalized -> bool {
    (n: Normalized) => n.episode.routeClass == c
  }

  /** For every cohort the success rate lies within its interval, and both within none and all. */
  lemma MetricsEnclose(sqrt: real -> real, s: seq<Normalized>)
    requires IsSquareRoot(sqrt)
    ensures var m := MetricsOf(sqrt, s);
      && m.verifiedSuccesses <= m.episodeCount
      && 0 <= m.vsrWilson95Ppm.lower <= m.vsrPpm <= m.vsrWilson95Ppm.upper <= 1000000
  {
    WilsonEncloses(sqrt, Count(Succeeded, s), |s|);
  }

  function ClassSum(select: Normalized -> int, s: seq<Normalized>, c: RouteClass): int {
    Sum(select, Filter(InClass(c), s))
  }

  /** A total over all episodes is the sum of its totals over the four route classes. */
  lemma {:induction false} SumSplits(select: Normalized -> int, s: seq<Normalized>)
    ensures Sum(select, s)
      == ClassSum(select, s, STATIC) + ClassSum(select, s, CURRENT) + ClassSum(select, s, CHEAP) + ClassSum(select, s, STRONG)
  {
    if s != [] {
      var front, x := s[..|s| - 1], s[|s| - 1];
      SplitLast(s);
      SumSplits(select, front);
      ClassSumPush(select, front, x, STATIC);
      ClassSumPush(select, front, x, CURRENT);
      ClassSumPush(select, front, x, CHEAP);
      ClassSumPush(select, front, x, STRONG);
    }
  }

  lemma ClassSumPush(select: Normalized -> int, front: seq<Normalized>, x: Normalized, c: RouteClass)
    ensures var s := front + [x];
      ClassSum(select, s, c) == ClassSum(select, front, c) + if x.episode.routeClass == c then select(x) else 0
  {
    var before := Filter(InClass(c), front);
    FilterPush(InClass(c), front, x);
    SumPush(select, before, x);
    assert before + [] == before;
  }

  function ClassCount(p: Normalized -> bool, s: seq<Normalized>, c: RouteClass): nat {
    Count(p, Filter(InClass(c), s))
  }

  function Indicator(p: Normalized -> bool): Normalized -> int {
    (n: Normalized) => if p(n) then 1 else 0
  }

  lemma {:induction false} CountIsSum(p: Normalized -> bool, s: seq<Normalized>)
    ensures Count(p, s) == Sum(Indicator(p), s)
  {
    if s != [] {
      CountIsSum(p, s[..|s| - 1]);
    }
  }

  lemma CountSplits(p: Normalized -> bool, s: seq<Normalized>)
    ensures Count(p, s)
      == ClassCount(p, s, STATIC) + ClassCount(p, s, CURRENT) + ClassCount(p, s, CHEAP) + ClassCount(p, s, STRONG)
  {
    CountIsSum(p, s);
    CountIsSum(p, Filter(InClass(STATIC), s));
    CountIsSum(p, Filter(InClass(CURRENT), s));
    CountIsSum(p, Filter(InClass(CHEAP), s));
    CountIsSum(p, Filter(InClass(STRONG), s));
    SumSplits(Indicator(p), s);
  }

  predicate Anything(n: Normalized) { true }

  lemma {:induction false} CountAnything(s: seq<Normalized>)
    ensures Count(Anything, s) == |s|
  {
    if s != [] {
      CountAnything(s[..|s| - 1]);
    }
  }

  function Part(s: seq<Normalized>, c: RouteClass): seq<Normalized> {
    Filter(InClass(c), s)
  }

  lemma TotalsByPlus(t: (Normalized -> int) -> int, a: (Normalized -> int) -> int, b: (Normalized -> int) -> int,
                     c: (Normalized -> int) -> int, d: (Normalized -> int) -> int)
    requires forall select :: t(select) == a(select) + b(select) + c(select) + d(select)
    ensures TotalsBy(t) == TotalsBy(a).Plus(TotalsBy(b)).Plus(TotalsBy(c)).Plus(TotalsBy(d))
  {}

  lemma TotalsSplit(s: seq<Normalized>)
    ensures TotalsOf(s) == TotalsOf(Part(s, STATIC)).Plus(TotalsOf(Part(s, CURRENT)))
                             .Plus(TotalsOf(Part(s, CHEAP))).Plus(TotalsOf(Part(s, STRONG)))
  {
    var a, b, c, d := SumOver(Part(s, STATIC)), SumOver(Part(s, CURRENT)), SumOver(Part(s, CHEAP)), SumOver(Part(s, STRONG));
    forall select ensures SumOver(s)(select) == a(select) + b(select) + c(select) + d(select) {
      SumSplits(select, s);
    }
    TotalsByPlus(SumOver(s), a, b, c, d);
  }

  lemma MissingnessByPlus(t: (Normalized -> bool) -> nat, a: (Normalized -> bool) -> nat, b: (Normalized -> bool) -> nat,
                          c: (Normalized -> bool) -> nat, d: (Normalized -> bool) -> nat)
    requires forall p :: t(p) == a(p) + b(p) + c(p) + d(p)
    ensures MissingnessBy(t) == MissingnessBy(a).Plus(MissingnessBy(b)).Plus(MissingnessBy(c)).Plus(MissingnessBy(d))
  {}

  lemma MissingnessSplits(s: seq<Normalized>)
    ensures MissingnessOf(s) == MissingnessOf(Part(s, STATIC)).Plus(MissingnessOf(Part(s, CURRENT)))
                                  .Plus(MissingnessOf(Part(s, CHEAP))).Plus(MissingnessOf(Part(s, STRONG)))
  {
    var a, b, c, d :=
      CountOver(Part(s, STATIC)), CountOver(Part(s, CURRENT)), CountOver(Part(s, CHEAP)), CountOver(Part(s, STRONG));
    forall p ensures CountOver(s)(p) == a(p) + b(p) + c(p) + d(p) {
      CountSplits(p, s);
    }
    MissingnessByPlus(CountOver(s), a, b, c, d);
  }

  lemma CountsSplit(s: seq<Normalized>)
    ensures |s| == |Part(s, STATIC)| + |Part(s, CURRENT)| + |Part(s, CHEAP)| + |Part(s, STRONG)|
    ensures Count(Succeeded, s) == Count(Succeeded, Part(s, STATIC)) + Count(Succeeded, Part(s, CURRENT))
      + Count(Succeeded, Part(s, CHEAP)) + Count(Succeeded, Part(s, STRONG))
  {
    CountSplits(Succeeded, s);
    CountSplits(Anything, s);
    CountAnything(s);
    CountAnything(Part(s, STATIC));
    CountAnything(Part(s, CURRENT));
    CountAnything(Part(s, CHEAP));
    CountAnything(Part(s, STRONG));
  }

  /** High confidence means twenty-four episodes, every one with complete evidence and known transport;
      at least medium, twelve episodes with at most a fifth of such defects. */
  lemma ConfidenceExactly(episodes: nat, incomplete: nat, unknown: nat)
    ensures ConfidenceOf(episodes, incomplete, unknown) == HIGH <==> episodes >= 24 && incomplete == 0 && unknown == 0
    ensures ConfidenceOf(episodes, incomplete, unknown) == LOW
      <==> episodes < 12 || 5 * (incomplete + unknown) > episodes
  {
    if episodes > 0 {
      QuotientBounds(episodes - incomplete - unknown, episodes);
    }
  }

  lemma QuotientBounds(a: int, n: nat)
    requires n > 0
    ensures a as real / n as real == 1.0 <==> a == n
    ensures a as real / n as real >= 0.8 <==> 5 * a >= 4 * n
  {
    var x, d := a as real / n as real, n as real;
    assert x * d == a as real;
    QuotientAgainst(x, d, a as real, 1.0);
    QuotientAgainst(x, d, a as real, 0.8);
  }

  lemma QuotientAgainst(x: real, d: real, product: real, bound: real)
    requires d > 0.0 && x * d == product
    ensures x >= bound <==> product >= bound * d
    ensures x == bound <==> product == bound * d
  {
    assert (x - bound) * d == product - bound * d;
    if x < bound {
      ProductPositive(bound - x, d);
    } else if x > bound {
      ProductPositive(x - bound, d);
    }
  }

  lemma {:induction false} MoneyAddsUp(s: seq<Normalized>)
    requires forall n | n in s :: n.billedCostMicros + n.reservedCostMicros == n.totalCostMicros
    ensures var t := TotalsOf(s); t.billedCostMicros + t.reservedCostMicros == t.totalCostMicros
  {
    if s != [] {
      MoneyAddsUp(s[..|s| - 1]);
    }
  }

  // ---------------------------------------------------------------- the baseline

  function NameOf(n: Normalized): string { n.episode.pseudonym }

  function FromSource(source: Source): Normalized -> bool {
    (n: Normalized) => n.episode.source == source
  }

  /** All episodes, normalized and in the order of their pseudonyms. */
  function Arranged(env: Env, values: seq<Episode>): seq<Normalized> {
    Sorting.Sort(Sorting.ByKey(env.leq, NameOf), Map(Normalize, values))
  }

  function BaselineOf(env: Env, episodes: seq<Normalized>): Baseline {
    var digests := Map(env.digestEpisode, episodes);
    Baseline(digests, env.digestCohort(digests), env.digestVersions(set n | n in episodes :: n.episode.versions),
             MetricsOf(env.sqrt, episodes),
             ByRouteClass(MetricsOf(env.sqrt, Part(episodes, STATIC)), MetricsOf(env.sqrt, Part(episodes, CURRENT)),
                          MetricsOf(env.sqrt, Part(episodes, CHEAP)), MetricsOf(env.sqrt, Part(episodes, STRONG))),
             SourceCoverage(Count(FromSource(AUGUST_CANARY), episodes), Count(FromSource(PUBLIC_ISSUE_41), episodes),
                            Count(FromSource(PUBLIC_ISSUE_58), episodes),
                            Count(FromSource(SANITIZED_SYNTHETIC), episodes)))
  }

  function Compute(env: Env, values: seq<Episode>): Result<Baseline, Failure> {
    if exists e :: e in values && !env.valid(e) then Err(INVALID_HISTORICAL_ROUTING_EPISODE)
    else
      var episodes := Arranged(env, values);
      if |Sorting.Elements(Map(NameOf, episodes))| != |episodes| then Err(DUPLICATE_HISTORICAL_EPISODE)
      else Ok(BaselineOf(env, episodes))
  }

  ghost predicate TotalOrder(leq: (string, string) -> bool) {
    Sorting.TotalPreorder(leq) && forall x, y :: leq(x, y) && leq(y, x) ==> x == y
  }

  function EpisodeName(e: Episode): string { e.pseudonym }

  lemma ArrangedNames(env: Env, values: seq<Episode>)
    ensures var episodes := Arranged(env, values);
      && |episodes| == |values|
      && Sorting.Elements(Map(NameOf, episodes)) == Sorting.Elements(Map(EpisodeName, values))
  {
    var normalized := Map(Normalize, values);
    var episodes := Arranged(env, values);
    var left, right := Map(NameOf, episodes), Map(EpisodeName, values);
    Sorting.SortKeepsElements(Sorting.ByKey(env.leq, NameOf), normalized);
    forall x | x in left ensures x in right {
      var i :| 0 <= i < |left| && left[i] == x;
      assert episodes[i] in normalized;
      var j :| 0 <= j < |normalized| && normalized[j] == episodes[i];
      assert right[j] == x;
    }
    forall x | x in right ensures x in left {
      var j :| 0 <= j < |right| && right[j] == x;
      assert normalized[j] in episodes;
      var i :| 0 <= i < |episodes| && episodes[i] == normalized[j];
      assert left[i] == x;
    }
  }

  /** A cohort is refused as a whole for an invalid episode or a repeated pseudonym, and for nothing else. */
  lemma ComputeExactly(env: Env, values: seq<Episode>)
    ensures var r := Compute(env, values);
      && (r == Err(INVALID_HISTORICAL_ROUTING_EPISODE) <==> exists e :: e in values && !env.valid(e))
      && (r.Ok? <==> (forall e | e in values :: env.valid(e)) && Sorting.Distinct(Map(EpisodeName, values)))
  {
    ArrangedNames(env, values);
    Sorting.DistinctBySize(Map(EpisodeName, values));
  }

  lemma PermutedNames(a: seq<Episode>, b: seq<Episode>)
    requires multiset(a) == multiset(b)
    ensures |a| == |b|
    ensures Sorting.Elements(Map(EpisodeName, a)) == Sorting.Elements(Map(EpisodeName, b))
  {
    assert |multiset(a)| == |a| && |multiset(b)| == |b|;
    forall x: Episode ensures x in a <==> x in b {
      Sorting.InMultiset(a, x);
      Sorting.InMultiset(b, x);
    }
    NamesFrom(a, b);
    NamesFrom(b, a);
  }

  lemma NamesFrom(a: seq<Episode>, b: seq<Episode>)
    requires forall x | x in a :: x in b
    ensures Sorting.Elements(Map(EpisodeName, a)) <= Sorting.Elements(Map(EpisodeName, b))
  {
    var left, right := Map(EpisodeName, a), Map(EpisodeName, b);
    forall name | name in left ensures name in right {
      var i :| 0 <= i < |left| && left[i] == name;
      assert a[i] in b;
      var j :| 0 <= j < |b| && b[j] == a[i];
      assert right[j] == name;
    }
  }

  lemma ByNormalizedName(env: Env, x: Episode, y: Episode)
    ensures Sorting.ByKey(Sorting.ByKey(env.leq, NameOf), Normalize)(x, y) == env.leq(x.pseudonym, y.pseudonym)
  {
    var leq := Sorting.ByKey(env.leq, NameOf);
    assert Sorting.ByKey(leq, Normalize)(x, y) == leq(Normalize(x), Normalize(y));
    assert leq(Normalize(x), Normalize(y)) == env.leq(NameOf(Normalize(x)), NameOf(Normalize(y)));
  }

  lemma NoTiesByName(env: Env, values: seq<Episode>)
    requires TotalOrder(env.leq) && Sorting.Distinct(Map(EpisodeName, values))
    ensures Sorting.TotalPreorder(Sorting.ByKey(Sorting.ByKey(env.leq, NameOf), Normalize))
    ensures Sorting.NoTies(Sorting.ByKey(Sorting.ByKey(env.leq, NameOf), Normalize), values)
  {
    var leq := Sorting.ByKey(Sorting.ByKey(env.leq, NameOf), Normalize);
    var names := Map(EpisodeName, values);
    forall x, y | x in values && y in values && leq(x, y) && leq(y, x) ensures x == y {
      ByNormalizedName(env, x, y);
      ByNormalizedName(env, y, x);
      var i :| 0 <= i < |values| && values[i] == x;
      var j :| 0 <= j < |values| && values[j] == y;
      assert names[i] == names[j];
    }
  }

  /** The baseline does not depend on the order in which the episodes are given. */
  lemma OrderDoesNotMatter(env: Env, a: seq<Episode>, b: seq<Episode>)
    requires TotalOrder(env.leq) && multiset(a) == multiset(b)
    ensures Compute(env, a) == Compute(env, b)
  {
    forall x: Episode ensures x in a <==> x in b {
      Sorting.InMultiset(a, x);
      Sorting.InMultiset(b, x);
    }
    PermutedNames(a, b);
    ArrangedNames(env, a);
    ArrangedNames(env, b);
    Sorting.DistinctBySize(Map(EpisodeName, a));
    if Sorting.Distinct(Map(EpisodeName, a)) {
      SameArrangement(env, a, b);
    }
  }

  lemma SameArrangement(env: Env, a: seq<Episode>, b: seq<Episode>)
    requires TotalOrder(env.leq) && multiset(a) == multiset(b) && Sorting.Distinct(Map(EpisodeName, a))
    ensures Arranged(env, a) == Arranged(env, b)
  {
    var leq := Sorting.ByKey(env.leq, NameOf);
    NoTiesByName(env, a);
    Sorting.SortForgetsOrder(Sorting.ByKey(leq, Normalize), a, b);
    Sorting.SortCommutesWithKey(leq, Normalize, a);
    Sorting.SortCommutesWithKey(leq, Normalize, b);
    assert Arranged(env, a) == Map(Normalize, Sorting.Sort(Sorting.ByKey(leq, Normalize), a));
    assert Arranged(env, b) == Map(Normalize, Sorting.Sort(Sorting.ByKey(leq, Normalize), b));
  }

  lemma ArrangedCostsAddUp(env: Env, values: seq<Episode>)
    ensures forall n | n in Arranged(env, values) :: n.billedCostMicros + n.reservedCostMicros == n.totalCostMicros
  {
    var normalized := Map(Normalize, values);
    Sorting.SortKeepsElements(Sorting.ByKey(env.leq, NameOf), normalized);
    forall n | n in Arranged(env, values) ensures n.billedCostMicros + n.reservedCostMicros == n.totalCostMicros {
      var i :| 0 <= i < |normalized| && normalized[i] == n;
      NormalizeMeans(values[i]);
    }
  }

  /** The overall figures are the sums over the four route classes, billed and reserved costs make up the
      total, and the overall interval encloses the overall rate. */
  lemma BaselineAddsUp(env: Env, values: seq<Episode>)
    requires IsSquareRoot(env.sqrt) && Compute(env, values).Ok?
    ensures var b := Compute(env, values).value; var c := b.byRouteClass;
      && b.overall.episodeCount == |values|
        == c.static_.episodeCount + c.current.episodeCount + c.cheap.episodeCount + c.strong.episodeCount
      && b.overall.verifiedSuccesses == c.static_.verifiedSuccesses + c.current.verifiedSuccesses
           + c.cheap.verifiedSuccesses + c.strong.verifiedSuccesses
      && b.overall.totals
           == c.static_.totals.Plus(c.current.totals).Plus(c.cheap.totals).Plus(c.strong.totals)
      && b.overall.missingness
           == c.static_.missingness.Plus(c.current.missingness).Plus(c.cheap.missingness).Plus(c.strong.missingness)
      && b.overall.totals.billedCostMicros + b.overall.totals.reservedCostMicros == b.overall.totals.totalCostMicros
      && 0 <= b.overall.vsrWilson95Ppm.lower <= b.overall.vsrPpm <= b.overall.vsrWilson95Ppm.upper <= 1000000
  {
    var episodes := Arranged(env, values);
    CountsSplit(episodes);
    TotalsSplit(episodes);
    MissingnessSplits(episodes);
    ArrangedCostsAddUp(env, values);
    MoneyAddsUp(episodes);
    MetricsEnclose(env.sqrt, episodes);
  }
}
