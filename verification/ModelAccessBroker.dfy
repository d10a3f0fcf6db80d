/** The model access broker. An invocation runs in two pieces around the wait for the provider, and
    the pieces of different invocations interleave freely; each piece is one step of a run. */
module ModelAccessBroker {
  import opened Options
  import opened Sequences

  datatype Protocol = OPENAI_CHAT_COMPLETIONS | OPENAI_RESPONSES | ANTHROPIC_MESSAGES

  datatype Budget = Budget(maxInputBytes: int, maxOutputBytes: int, maxTokens: int, maxCostMicros: int,
                           maxRequests: int, timeoutMs: int)

  datatype Request = Request(
    operationId: string, tenant: string, purpose: string, routeId: string, protocol: Protocol, text: string,
    structuredOutput: Option<string>, optionalFields: set<string>, budget: Budget)

  datatype GuardOutcome = ALLOW | DENY | OWNER_ESCALATION | THROTTLE | QUARANTINE

  datatype Replay = FIRST | SAME_RECEIPT | NONE

  datatype BrokerResult = BrokerResult(outcome: GuardOutcome, response: Option<string>, replay: Replay)

  datatype Receipt = Receipt(requestDigest: string, result: BrokerResult)

  datatype BudgetKey = BudgetKey(tenant: string, purpose: string, routeId: string)

  /** An invocation waiting for its provider. */
  datatype Pending = Pending(request: Request, requestDigest: string)

  datatype Answer = Answer(operationId: string, requestDigest: string, result: BrokerResult)

  /** What the provider came back with; None is a rejection, an abort or a timeout. */
  type Reply = Option<string>

  /** The guards and the hash. admit is the request guard apart from the budget, and gives the request
      as it will be sent; respond is the response guard, None for quarantine. */
  datatype Env = Env(ceiling: Budget, admit: Request -> Option<Request>, refusal: Request -> GuardOutcome,
                     digest: Request -> string, respond: (Request, string) -> Option<string>)
  {
    /** Redaction changes the text of a request and nothing else. */
    ghost predicate Sound() {
      && (forall r :: admit(r).Some? ==> admit(r).value == r.(text := admit(r).value.text))
      && (forall r :: refusal(r) != ALLOW)
    }
  }

  predicate Within(value: int, max: int) {
    1 <= value <= max
  }

  predicate ValidBudget(b: Budget, ceiling: Budget) {
    && Within(b.maxInputBytes, ceiling.maxInputBytes)
    && Within(b.maxOutputBytes, ceiling.maxOutputBytes)
    && Within(b.maxTokens, ceiling.maxTokens)
    && Within(b.maxCostMicros, ceiling.maxCostMicros)
    && Within(b.maxRequests, ceiling.maxRequests)
    && Within(b.timeoutMs, ceiling.timeoutMs)
  }

  function Guard(env: Env, r: Request): Option<Request> {
    if ValidBudget(r.budget, env.ceiling) then env.admit(r) else None
  }

  /** The adapted request carries an undefined member, which canonical JSON refuses to hash: a chat
      request without structured output, or a responses request without it whose optional fields do
      not happen to overwrite that member. */
  predicate AdaptationThrows(r: Request) {
    && r.structuredOutput.None?
    && match r.protocol
       case OPENAI_CHAT_COMPLETIONS => true
       case OPENAI_RESPONSES => "text" !in r.optionalFields
       case ANTHROPIC_MESSAGES => false
  }

  function KeyOf(r: Request): BudgetKey {
    BudgetKey(r.tenant, r.purpose, r.routeId)
  }

  // ---------------------------------------------------------------- runs

  /** receipts and reserved are the broker's memory; the rest is what an observer has seen: who is
      waiting, which provider calls were started, which reservations were made by an invocation that
      then threw, and all answers given. */
  datatype State = State(receipts: map<string, Receipt>, reserved: map<BudgetKey, nat>, waiting: seq<Pending>,
                         started: seq<BudgetKey>, spoiled: seq<BudgetKey>, answers: seq<Answer>)

  const INITIAL := State(map[], map[], [], [], [], [])

  datatype Step = Begin(request: Request) | Finish(index: nat, reply: Reply)

  function Reserved(s: State, key: BudgetKey): nat {
    if key in s.reserved then s.reserved[key] else 0
  }

  function Give(s: State, answer: Answer): State {
    s.(answers := s.answers + [answer])
  }

  /** From the call of invoke to its wait for the provider, or to its answer. */
  function BeginStep(env: Env, s: State, r: Request): State {
    match Guard(env, r)
    case None => Give(s, Answer(r.operationId, env.digest(r), BrokerResult(env.refusal(r), None, NONE)))
    case Some(g) =>
      var digest := env.digest(g);
      if g.operationId in s.receipts then
        var prior := s.receipts[g.operationId];
        if prior.requestDigest != digest then Give(s, Answer(g.operationId, digest, BrokerResult(DENY, None, NONE)))
        else Give(s, Answer(g.operationId, digest, prior.result.(replay := SAME_RECEIPT)))
      else if Reserved(s, KeyOf(g)) >= g.budget.maxRequests then
        Give(s, Answer(g.operationId, digest, BrokerResult(THROTTLE, None, NONE)))
      else
        var s' := s.(reserved := s.reserved[KeyOf(g) := Reserved(s, KeyOf(g)) + 1]);
        if AdaptationThrows(g) then s'.(spoiled := s.spoiled + [KeyOf(g)])
        else s'.(waiting := s.waiting + [Pending(g, digest)], started := s.started + [KeyOf(g)])
  }

  /** From the provider's reply to the answer. */
  function FinishStep(env: Env, s: State, index: nat, reply: Reply): State
    requires index < |s.waiting|
  {
    var p := s.waiting[index];
    var s' := s.(waiting := s.waiting[..index] + s.waiting[index + 1..]);
    var response := if reply.None? then None else env.respond(p.request, reply.value);
    if response.None? then
      Give(s', Answer(p.request.operationId, p.requestDigest, BrokerResult(QUARANTINE, None, NONE)))
    else
      var result := BrokerResult(ALLOW, response, FIRST);
      Give(s'.(receipts := s.receipts[p.request.operationId := Receipt(p.requestDigest, result)]),
           Answer(p.request.operationId, p.requestDigest, result))
  }

  function Apply(env: Env, s: State, step: Step): State {
    match step
    case Begin(r) => BeginStep(env, s, r)
    case Finish(index, reply) => if index < |s.waiting| then FinishStep(env, s, index, reply) else s
  }

  function RunSteps(env: Env, steps: seq<Step>): State {
    if steps == [] then INITIAL else Apply(env, RunSteps(env, steps[..|steps| - 1]), steps[|steps| - 1])
  }

  lemma RunStepsPush(env: Env, steps: seq<Step>, step: Step)
    ensures RunSteps(env, steps + [step]) == Apply(env, RunSteps(env, steps), step)
  {
    TakeFront(steps, step);
  }

  function Count(keys: seq<BudgetKey>, key: BudgetKey): nat {
    multiset(keys)[key]
  }

  /** Budgets: a reservation counts started calls and spoiled ones, and stays under the ceiling. */
  ghost predicate BudgetKept(env: Env, s: State, key: BudgetKey) {
    && Reserved(s, key) == Count(s.started, key) + Count(s.spoiled, key)
    && (Reserved(s, key) == 0 || Reserved(s, key) <= env.ceiling.maxRequests)
  }

  /** The answer at index i was the first ALLOW for its operation and request. */
  ghost predicate FirstAllowed(answers: seq<Answer>, i: nat, operationId: string, requestDigest: string, result: BrokerResult) {
    && i < |answers|
    && answers[i] == Answer(operationId, requestDigest, result)
    && result.outcome == ALLOW
    && result.replay == FIRST
  }

  ghost predicate Allowed(answers: seq<Answer>, operationId: string, requestDigest: string, result: BrokerResult) {
    exists i :: FirstAllowed(answers, i, operationId, requestDigest, result)
  }

  /** Every stored receipt was given as a first answer, and every replayed answer repeats one. */
  ghost predicate ReplaysKept(s: State) {
    && (forall op | op in s.receipts :: Allowed(s.answers, op, s.receipts[op].requestDigest, s.receipts[op].result))
    && (forall j | 0 <= j < |s.answers| && s.answers[j].result.replay == SAME_RECEIPT ::
          Allowed(s.answers[..j], s.answers[j].operationId, s.answers[j].requestDigest,
                  s.answers[j].result.(replay := FIRST)))
  }

  lemma CountPush(keys: seq<BudgetKey>, k: BudgetKey, key: BudgetKey)
    ensures Count(keys + [k], key) == Count(keys, key) + if k == key then 1 else 0
  {}

  lemma AllowedStays(answers: seq<Answer>, more: Answer, operationId: string, requestDigest: string, result: BrokerResult)
    requires Allowed(answers, operationId, requestDigest, result)
    ensures Allowed(answers + [more], operationId, requestDigest, result)
  {
    var i :| FirstAllowed(answers, i, operationId, requestDigest, result);
    assert FirstAllowed(answers + [more], i, operationId, requestDigest, result);
  }

  lemma BeginCounts(env: Env, s: State, r: Request, key: BudgetKey)
    requires Starts(env, s, r)
    ensures var s', g := BeginStep(env, s, r), Guard(env, r).value;
      var same := if KeyOf(g) == key then 1 else 0;
      && Reserved(s', key) == Reserved(s, key) + same
      && Count(s'.started, key) == Count(s.started, key) + (if AdaptationThrows(g) then 0 else same)
      && Count(s'.spoiled, key) == Count(s.spoiled, key) + (if AdaptationThrows(g) then same else 0)
  {
    var g := Guard(env, r).value;
    CountPush(s.started, KeyOf(g), key);
    CountPush(s.spoiled, KeyOf(g), key);
  }

  /** How one step moves the three counts of one key. */
  lemma StepCounts(env: Env, s: State, step: Step, key: BudgetKey)
    ensures var s' := Apply(env, s, step);
      if step.Begin? && Starts(env, s, step.request) && KeyOf(Guard(env, step.request).value) == key then
        && Reserved(s', key) == Reserved(s, key) + 1
        && Count(s'.started, key) + Count(s'.spoiled, key) == Count(s.started, key) + Count(s.spoiled, key) + 1
        && Count(s'.spoiled, key)
           == Count(s.spoiled, key) + if AdaptationThrows(Guard(env, step.request).value) then 1 else 0
      else
        && Reserved(s', key) == Reserved(s, key)
        && Count(s'.started, key) == Count(s.started, key)
        && Count(s'.spoiled, key) == Count(s.spoiled, key)
  {
    if step.Begin? && Starts(env, s, step.request) {
      BeginCounts(env, s, step.request, key);
    }
  }

  /** The invocation gets as far as reserving budget. */
  predicate Starts(env: Env, s: State, r: Request) {
    && Guard(env, r).Some?
    && var g := Guard(env, r).value;
    && g.operationId !in s.receipts
    && Reserved(s, KeyOf(g)) < g.budget.maxRequests
  }

  lemma StepKeepsBudget(env: Env, s: State, step: Step, key: BudgetKey)
    requires env.Sound() && BudgetKept(env, s, key)
    ensures BudgetKept(env, Apply(env, s, step), key)
  {
    StepCounts(env, s, step, key);
  }

  /** Under any interleaving the reservation of a budget counts the provider calls started for it plus
      the invocations that threw after reserving, and never passes the policy's ceiling. */
  lemma {:induction false} BudgetUnderAnyInterleaving(env: Env, steps: seq<Step>, key: BudgetKey)
    requires env.Sound()
    ensures BudgetKept(env, RunSteps(env, steps), key)
  {
    if steps != [] {
      BudgetUnderAnyInterleaving(env, steps[..|steps| - 1], key);
      StepKeepsBudget(env, RunSteps(env, steps[..|steps| - 1]), steps[|steps| - 1], key);
    }
  }

  /** Some invocation of the run reserved this budget and then failed to adapt its request. */
  ghost predicate SomeSpoils(env: Env, steps: seq<Step>, key: BudgetKey) {
    exists i :: 0 <= i < |steps| && SpoilsAt(env, steps, i, key)
  }

  ghost predicate SpoilsAt(env: Env, steps: seq<Step>, i: nat, key: BudgetKey)
    requires i < |steps|
  {
    && steps[i].Begin?
    && Starts(env, RunSteps(env, steps[..i]), steps[i].request)
    && KeyOf(Guard(env, steps[i].request).value) == key
    && AdaptationThrows(Guard(env, steps[i].request).value)
  }

  lemma SpoilsAtPrefix(env: Env, steps: seq<Step>, n: nat, i: nat, key: BudgetKey)
    requires i < n <= |steps|
    ensures SpoilsAt(env, steps[..n], i, key) <==> SpoilsAt(env, steps, i, key)
  {
    TakeTake(steps, i, n);
  }

  lemma SomeSpoilsPush(env: Env, steps: seq<Step>, key: BudgetKey)
    requires steps != []
    ensures SomeSpoils(env, steps, key)
       <==> SomeSpoils(env, steps[..|steps| - 1], key) || SpoilsAt(env, steps, |steps| - 1, key)
  {
    var n := |steps| - 1;
    if SomeSpoils(env, steps[..n], key) {
      var i :| 0 <= i < n && SpoilsAt(env, steps[..n], i, key);
      SpoilsAtPrefix(env, steps, n, i, key);
    }
    if SomeSpoils(env, steps, key) {
      var i :| 0 <= i < |steps| && SpoilsAt(env, steps, i, key);
      if i < n { SpoilsAtPrefix(env, steps, n, i, key); }
    }
  }

  /** The reservation equals the number of provider calls started exactly when no reserving invocation
      lacked the structured output its protocol needs for the adapted request to be hashable. */
  lemma ReservedIsStartedIffNoneSpoils(env: Env, steps: seq<Step>, key: BudgetKey)
    requires env.Sound()
    ensures Reserved(RunSteps(env, steps), key) == Count(RunSteps(env, steps).started, key)
       <==> !SomeSpoils(env, steps, key)
  {
    BudgetUnderAnyInterleaving(env, steps, key);
    SpoiledIffSomeSpoils(env, steps, key);
  }

  lemma {:induction false} SpoiledIffSomeSpoils(env: Env, steps: seq<Step>, key: BudgetKey)
    ensures Count(RunSteps(env, steps).spoiled, key) > 0 <==> SomeSpoils(env, steps, key)
  {
    if steps != [] {
      var front := steps[..|steps| - 1];
      SpoiledIffSomeSpoils(env, front, key);
      SomeSpoilsPush(env, steps, key);
      StepCounts(env, RunSteps(env, front), steps[|steps| - 1], key);
    }
  }

  /** What a caller can see to beforehand: as long as every request of a run carries what its protocol
      needs, reservations count provider calls exactly. */
  lemma {:induction false} HashableRequestsKeepCount(env: Env, steps: seq<Step>, key: BudgetKey)
    requires env.Sound()
    requires forall i | 0 <= i < |steps| :: steps[i].Begin? ==> !AdaptationThrows(steps[i].request)
    ensures Reserved(RunSteps(env, steps), key) == Count(RunSteps(env, steps).started, key)
  {
    ReservedIsStartedIffNoneSpoils(env, steps, key);
    forall i | 0 <= i < |steps| ensures !SpoilsAt(env, steps, i, key) {
      if steps[i].Begin? && Guard(env, steps[i].request).Some? {
        GuardKeepsShape(env, steps[i].request);
      }
    }
  }

  lemma GuardKeepsShape(env: Env, r: Request)
    requires env.Sound() && Guard(env, r).Some?
    ensures AdaptationThrows(Guard(env, r).value) <==> AdaptationThrows(r)
  {}

  /** A chat request without structured output that does spoil its reservation: budget is used up and
      no provider is ever called. */
  lemma SpoiledReservationExists(env: Env, r: Request)
    requires Guard(env, r) == Some(r)
    requires r.protocol == OPENAI_CHAT_COMPLETIONS && r.structuredOutput == None && r.budget.maxRequests == 1
    ensures var s := RunSteps(env, [Begin(r), Begin(r)]);
      && Reserved(s, KeyOf(r)) == 1
      && s.started == []
      && s.answers == [Answer(r.operationId, env.digest(r), BrokerResult(THROTTLE, None, NONE))]
  {
    RunStepsPush(env, [], Begin(r));
    RunStepsPush(env, [Begin(r)], Begin(r));
    assert [] + [Begin(r)] == [Begin(r)] && [Begin(r)] + [Begin(r)] == [Begin(r), Begin(r)];
  }

  // ---------------------------------------------------------------- replayed answers

  lemma GiveKeepsReplays(s: State, answer: Answer)
    requires ReplaysKept(s)
    requires answer.result.replay == SAME_RECEIPT ==>
      Allowed(s.answers, answer.operationId, answer.requestDigest, answer.result.(replay := FIRST))
    ensures ReplaysKept(Give(s, answer))
  {
    var s' := Give(s, answer);
    forall op | op in s'.receipts
      ensures Allowed(s'.answers, op, s'.receipts[op].requestDigest, s'.receipts[op].result)
    {
      AllowedStays(s.answers, answer, op, s.receipts[op].requestDigest, s.receipts[op].result);
    }
    forall j | 0 <= j < |s'.answers| && s'.answers[j].result.replay == SAME_RECEIPT
      ensures Allowed(s'.answers[..j], s'.answers[j].operationId, s'.answers[j].requestDigest,
                      s'.answers[j].result.(replay := FIRST))
    {
      if j < |s.answers| {
        assert s'.answers[j] == s.answers[j];
        assert s'.answers[..j] == s.answers[..j];
      } else {
        TakeFront(s.answers, answer);
      }
    }
  }

  lemma BeginKeepsReplays(env: Env, s: State, r: Request)
    requires env.Sound() && ReplaysKept(s)
    ensures ReplaysKept(BeginStep(env, s, r))
  {
    var s' := BeginStep(env, s, r);
    if s'.answers != s.answers {
      var answer := s'.answers[|s.answers|];
      assert s' == Give(s, answer);
      if answer.result.replay == SAME_RECEIPT {
        var g := Guard(env, r).value;
        var prior := s.receipts[g.operationId];
        assert Allowed(s.answers, g.operationId, prior.requestDigest, prior.result);
        var i :| FirstAllowed(s.answers, i, g.operationId, prior.requestDigest, prior.result);
        assert prior.result == answer.result.(replay := FIRST);
      }
      GiveKeepsReplays(s, answer);
    }
  }

  lemma FinishKeepsReplays(env: Env, s: State, index: nat, reply: Reply)
    requires ReplaysKept(s) && index < |s.waiting|
    ensures ReplaysKept(FinishStep(env, s, index, reply))
  {
    var s' := FinishStep(env, s, index, reply);
    var answer := s'.answers[|s.answers|];
    GiveKeepsReplays(s, answer);
    if answer.result.outcome == ALLOW {
      assert FirstAllowed(s'.answers, |s.answers|, answer.operationId, answer.requestDigest, answer.result);
    }
  }

  /** Under any interleaving, an answer marked SAME_RECEIPT repeats an ALLOW answer given earlier as
      FIRST for the same operation id and the same guarded request digest. */
  lemma {:induction false} ReplaysUnderAnyInterleaving(env: Env, steps: seq<Step>)
    requires env.Sound()
    ensures ReplaysKept(RunSteps(env, steps))
  {
    if steps != [] {
      var s := RunSteps(env, steps[..|steps| - 1]);
      ReplaysUnderAnyInterleaving(env, steps[..|steps| - 1]);
      match steps[|steps| - 1]
      case Begin(r) => BeginKeepsReplays(env, s, r);
      case Finish(index, reply) => if index < |s.waiting| { FinishKeepsReplays(env, s, index, reply); }
    }
  }

  // ---------------------------------------------------------------- the class

  datatype Begun = Answered(result: BrokerResult) | AwaitingProvider(pending: Pending) | Threw

  class ModelAccessBroker {
    const env: Env
    var receipts: map<string, Receipt>
    var reserved: map<BudgetKey, nat>
    ghost var waiting: seq<Pending>
    ghost var started: seq<BudgetKey>
    ghost var spoiled: seq<BudgetKey>
    ghost var answers: seq<Answer>

    ghost function Current(): State
      reads this
    {
      State(receipts, reserved, waiting, started, spoiled, answers)
    }

    constructor (env: Env)
      ensures this.env == env && Current() == INITIAL
    {
      this.env := env;
      receipts, reserved := map[], map[];
      waiting, started, spoiled, answers := [], [], [], [];
    }

    method Record(ghost operationId: string, ghost requestDigest: string, result: BrokerResult) returns (begun: Begun)
      modifies this`answers
      ensures answers == old(answers) + [Answer(operationId, requestDigest, result)]
      ensures begun == Answered(result)
    {
      answers := answers + [Answer(operationId, requestDigest, result)];
      begun := Answered(result);
    }

    /** invoke up to its wait for the provider. */
    method Begin(r: Request) returns (begun: Begun)
      modifies this
      ensures Current() == BeginStep(env, old(Current()), r)
      ensures match begun
        case Answered(result) => answers != [] && answers[|answers| - 1].result == result
        case AwaitingProvider(pending) => waiting == old(waiting) + [pending]
        case Threw => |spoiled| == |old(spoiled)| + 1
    {
      var guarded := Guard(env, r);
      if guarded.None? {
        begun := Record(r.operationId, env.digest(r), BrokerResult(env.refusal(r), None, NONE));
        return;
      }
      var g := guarded.value;
      var requestDigest := env.digest(g);
      if g.operationId in receipts {
        var prior := receipts[g.operationId];
        if prior.requestDigest != requestDigest {
          begun := Record(g.operationId, requestDigest, BrokerResult(DENY, None, NONE));
        } else {
          begun := Record(g.operationId, requestDigest, prior.result.(replay := SAME_RECEIPT));
        }
        return;
      }
      var used := if KeyOf(g) in reserved then reserved[KeyOf(g)] else 0;
      if used >= g.budget.maxRequests {
        begun := Record(g.operationId, requestDigest, BrokerResult(THROTTLE, None, NONE));
        return;
      }
      reserved := reserved[KeyOf(g) := used + 1];
      if AdaptationThrows(g) {
        spoiled := spoiled + [KeyOf(g)];
        return Threw;
      }
      waiting := waiting + [Pending(g, requestDigest)];
      started := started + [KeyOf(g)];
      return AwaitingProvider(Pending(g, requestDigest));
    }

    /** invoke from the provider's reply on. */
    method Finish(pending: Pending, reply: Reply, ghost index: nat) returns (result: BrokerResult)
      requires index < |waiting| && waiting[index] == pending
      modifies this
      ensures Current() == FinishStep(env, old(Current()), index, reply)
      ensures answers != [] && answers[|answers| - 1].result == result
    {
      waiting := waiting[..index] + waiting[index + 1..];
      var response := if reply.None? then None else env.respond(pending.request, reply.value);
      if response.None? {
        result := BrokerResult(QUARANTINE, None, NONE);
      } else {
        result := BrokerResult(ALLOW, response, FIRST);
        receipts := receipts[pending.request.operationId := Receipt(pending.requestDigest, result)];
      }
      var _ := Record(pending.request.operationId, pending.requestDigest, result);
    }
  }
}
