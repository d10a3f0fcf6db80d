/** Executing admitted capabilities against a shared replay store. Whatever the environment does
    while the broker waits for it, including calling the broker again, no request id is committed
    twice. */
module CapabilityBroker {
  import opened Options
  import opened Sequences
  import opened Sorting
  import opened CapabilityAdmission

  datatype ReplayState = IN_FLIGHT | CONSUMED

  type Entries = map<string, ReplayState>

  /** One call of the broker together with everything its environment does during that call. The
      calls nested in a step are made while that step runs; None is a step that throws, or a clock
      reading that is not a finite number. */
  datatype Call = Call(
    catalogue: Catalogue, activation: Activation, policy: Policy, decision: Decision, observedAt: int,
    startClock: ClockReading, prepare: Preparation, endClock: ClockReading, commit: Commitment)

  datatype ClockReading = ClockReading(nested: seq<Call>, reading: Option<real>)

  datatype Preparation = Preparation(nested: seq<Call>, effect: Option<PreparedEffect>)

  /** response is None when the response cannot be cloned as a record. */
  datatype PreparedEffect = PreparedEffect(wellShaped: bool, response: Option<string>)

  datatype Commitment = Commitment(nested: seq<Call>, throws: bool)

  datatype BrokerOutcome = DENIED(issue: Issue) | AMBIGUOUS | EXECUTED(response: string)

  // ---------------------------------------------------------------- what a stretch of execution may do

  /** From the first store to the second, entries present at the start are untouched, no reservation
      is left behind, and the commits made in between are exactly the ids newly consumed, once each. */
  ghost predicate Extends(before: Entries, commitsBefore: seq<string>, after: Entries, commitsAfter: seq<string>) {
    && commitsBefore <= commitsAfter
    && (forall id | id in before :: id in after && after[id] == before[id])
    && (forall id | id in after && id !in before :: after[id] == CONSUMED)
    && (forall id :: id in commitsAfter[|commitsBefore|..] <==> id in after && id !in before)
    && Distinct(commitsAfter[|commitsBefore|..])
  }

  lemma NewCommits(c0: seq<string>, c1: seq<string>, c2: seq<string>)
    requires c0 <= c1 <= c2
    ensures c2[|c0|..] == c1[|c0|..] + c2[|c1|..]
  {}

  lemma DistinctConcat(a: seq<string>, b: seq<string>)
    requires Distinct(a) && Distinct(b) && forall id | id in a :: id !in b
    ensures Distinct(a + b)
  {
    forall i, j | 0 <= i < j < |a + b| ensures (a + b)[i] != (a + b)[j] {
      if i < |a| <= j {
        assert a[i] in a && b[j - |a|] in b;
      }
    }
  }

  lemma ExtendsTransitive(e0: Entries, c0: seq<string>, e1: Entries, c1: seq<string>, e2: Entries, c2: seq<string>)
    requires Extends(e0, c0, e1, c1) && Extends(e1, c1, e2, c2)
    ensures Extends(e0, c0, e2, c2)
  {
    NewCommits(c0, c1, c2);
    DistinctConcat(c1[|c0|..], c2[|c1|..]);
  }

  /** Reserving an id, running on, and releasing the reservation. */
  lemma ReleaseExtends(e0: Entries, c0: seq<string>, e1: Entries, c1: seq<string>, id: string)
    requires id !in e0 && Extends(e0[id := IN_FLIGHT], c0, e1, c1)
    ensures Extends(e0, c0, e1 - {id}, c1)
    ensures e1[id] == IN_FLIGHT && id !in e1 - {id}
  {}

  /** Reserving an id, running on, committing once while running on, and consuming the reservation. */
  lemma ConsumeExtends(e0: Entries, c0: seq<string>, e1: Entries, c1: seq<string>, e2: Entries, c2: seq<string>, id: string)
    requires id !in e0 && Extends(e0[id := IN_FLIGHT], c0, e1, c1) && Extends(e1, c1 + [id], e2, c2)
    ensures Extends(e0, c0, e2[id := CONSUMED], c2)
    ensures id in c2[|c0|..]
  {
    NewCommits(c0, c1, c2);
    NewCommits(c1, c1 + [id], c2);
    assert (c1 + [id])[|c1|..] == [id];
    DistinctConcat([id], c2[|c1 + [id]|..]);
    DistinctConcat(c1[|c0|..], c2[|c1|..]);
  }

  // ---------------------------------------------------------------- the broker

  class ReplayStore {
    var entries: Entries
    /** The request ids whose commit was called, in order. */
    ghost var commits: seq<string>

    constructor ()
      ensures entries == map[] && commits == []
    {
      entries := map[];
      commits := [];
    }

    method ClearPreCommitReservation(id: string)
      modifies this`entries
      ensures entries == if id in old(entries) && old(entries)[id] == IN_FLIGHT then old(entries) - {id} else old(entries)
    {
      if id in entries && entries[id] == IN_FLIGHT {
        entries := entries - {id};
      }
    }

    /** Whatever calls the environment makes while one step of the broker runs. */
    method RunNested(env: Env, calls: seq<Call>)
      modifies this
      ensures Extends(old(entries), old(commits), entries, commits)
      decreases calls, 0
    {
      ghost var e0, c0 := entries, commits;
      for i := 0 to |calls|
        invariant Extends(e0, c0, entries, commits)
      {
        ghost var e1, c1 := entries, commits;
        var _ := Execute(env, calls[i]);
        ExtendsTransitive(e0, c0, e1, c1, entries, commits);
      }
    }

    /** Runs nested calls while the reservation made in e0 is held. */
    method RunWhileReserved(env: Env, calls: seq<Call>, ghost e0: Entries, ghost c0: seq<string>, ghost id: string)
      requires id !in e0 && Extends(e0[id := IN_FLIGHT], c0, entries, commits)
      modifies this
      ensures Extends(e0[id := IN_FLIGHT], c0, entries, commits)
      decreases calls, 1
    {
      ghost var e1, c1 := entries, commits;
      RunNested(env, calls);
      ExtendsTransitive(e0[id := IN_FLIGHT], c0, e1, c1, entries, commits);
    }

    /** Gives the reservation back and refuses. */
    method Refuse(id: string, issue: Issue, ghost e0: Entries, ghost c0: seq<string>) returns (outcome: BrokerOutcome)
      requires id !in e0 && Extends(e0[id := IN_FLIGHT], c0, entries, commits)
      modifies this
      ensures Extends(e0, c0, entries, commits) && id !in entries
      ensures outcome == DENIED(issue)
    {
      ReleaseExtends(e0, c0, entries, commits, id);
      ClearPreCommitReservation(id);
      outcome := DENIED(issue);
    }

    /** Calls commit and consumes the reservation, whether commit returns or throws. */
    method Commit(env: Env, id: string, response: string, commitment: Commitment, ghost e0: Entries, ghost c0: seq<string>)
      returns (outcome: BrokerOutcome)
      requires id !in e0 && Extends(e0[id := IN_FLIGHT], c0, entries, commits)
      modifies this
      ensures Extends(e0, c0, entries, commits) && id in commits[|c0|..]
      ensures outcome == if commitment.throws then AMBIGUOUS else EXECUTED(response)
      decreases commitment, 1
    {
      ghost var e1, c1 := entries, commits;
      commits := commits + [id];
      RunNested(env, commitment.nested);
      ConsumeExtends(e0, c0, e1, c1, entries, commits, id);
      entries := entries[id := CONSUMED];
      outcome := if commitment.throws then AMBIGUOUS else EXECUTED(response);
    }

    /** Executes one call. Its outcome is told exactly by the store it finds and by what its own
        environment answers; nested calls have no say in it. */
    method Execute(env: Env, call: Call) returns (outcome: BrokerOutcome)
      modifies this
      ensures Extends(old(entries), old(commits), entries, commits)
      ensures outcome == OutcomeOf(env, old(entries), call)
      ensures outcome.DENIED? && call.decision.core.ticket.Some? ==>
        (RequestId(call) in entries <==> RequestId(call) in old(entries))
      ensures !outcome.DENIED? ==>
        && RequestId(call) !in old(entries)
        && RequestId(call) in commits[|old(commits)|..]
      decreases call, 1
    {
      var issue := BrokerIssue(env, call.catalogue, call.activation, call.policy, call.decision, call.observedAt);
      if issue.Some? {
        return DENIED(issue.value);
      }
      var id := RequestId(call);
      if id in entries {
        return DENIED(if entries[id] == IN_FLIGHT then REPLAY_IN_FLIGHT_DENIED else REPLAY_CONSUMED_DENIED);
      }
      var action := FindAction(call.catalogue.actions, call.decision.core.ticket.value.actionId).value;
      ghost var e0, c0 := entries, commits;
      entries := entries[id := IN_FLIGHT];
      outcome := Attempt(env, call, call.decision.core.ticket.value, action, id, e0, c0);
    }

    /** The reserved part of an execution, from the snapshot to the commit. */
    method Attempt(env: Env, call: Call, ticket: Ticket, action: Action, id: string, ghost e0: Entries,
                   ghost c0: seq<string>)
      returns (outcome: BrokerOutcome)
      requires id !in e0 && entries == e0[id := IN_FLIGHT] && commits == c0
      modifies this
      ensures Extends(e0, c0, entries, commits)
      ensures outcome == AttemptOutcome(env, action, ticket, call)
      ensures if outcome.DENIED? then id !in entries else id in commits[|c0|..]
      decreases call, 0
    {
      var snapshot := ticket.body;
      if !env.requestConforms(action, snapshot) || env.digestText(snapshot) != ticket.requestDigest {
        outcome := Refuse(id, REQUEST_SNAPSHOT_INVALID_DENIED, e0, c0);
        return;
      }
      RunWhileReserved(env, call.startClock.nested, e0, c0, id);
      var startedAt := call.startClock.reading;
      if startedAt.None? {
        outcome := Refuse(id, RESOURCE_BOUNDS_DENIED, e0, c0);
        return;
      }
      RunWhileReserved(env, call.prepare.nested, e0, c0, id);
      var effect := call.prepare.effect;
      if effect.None? {
        outcome := Refuse(id, RESPONSE_SCHEMA_INVALID_DENIED, e0, c0);
        return;
      }
      RunWhileReserved(env, call.endClock.nested, e0, c0, id);
      var preparedAt := call.endClock.reading;
      if preparedAt.None? || preparedAt.value < startedAt.value
        || preparedAt.value - startedAt.value > action.maxExecutionMs
      {
        outcome := Refuse(id, RESOURCE_BOUNDS_DENIED, e0, c0);
        return;
      }
      if !effect.value.wellShaped {
        outcome := Refuse(id, PREPARED_EFFECT_INVALID_DENIED, e0, c0);
        return;
      }
      var response := effect.value.response;
      if response.None? || !env.responseConforms(action, response.value) {
        outcome := Refuse(id, RESPONSE_SCHEMA_INVALID_DENIED, e0, c0);
        return;
      }
      if env.byteLength(response.value) > action.maxResponseBytes {
        outcome := Refuse(id, RESOURCE_BOUNDS_DENIED, e0, c0);
        return;
      }
      outcome := Commit(env, id, response.value, call.commit, e0, c0);
    }

    /** Any number of calls in a row, from an empty store: no id is ever committed twice, every
        committed id is consumed for good, and nothing stays in flight. */
    method RunSession(env: Env, calls: seq<Call>)
      requires entries == map[] && commits == []
      modifies this
      ensures Distinct(commits)
      ensures forall id :: id in commits <==> id in entries
      ensures forall id | id in entries :: entries[id] == CONSUMED
    {
      RunNested(env, calls);
      assert commits[0..] == commits;
    }
  }

  // ---------------------------------------------------------------- the outcome of one call

  function RequestId(call: Call): string {
    if call.decision.core.ticket.Some? then call.decision.core.ticket.value.requestId else ""
  }

  /** What the answers of clock and executor make of an execution with a faithful snapshot. */
  function AnsweredOutcome(env: Env, action: Action, call: Call): BrokerOutcome {
    var effect, start, end := call.prepare.effect, call.startClock.reading, call.endClock.reading;
    if start.None? then DENIED(RESOURCE_BOUNDS_DENIED)
    else if effect.None? then DENIED(RESPONSE_SCHEMA_INVALID_DENIED)
    else if end.None? || !(0.0 <= end.value - start.value <= action.maxExecutionMs) then DENIED(RESOURCE_BOUNDS_DENIED)
    else if !effect.value.wellShaped then DENIED(PREPARED_EFFECT_INVALID_DENIED)
    else
      match effect.value.response
      case None => DENIED(RESPONSE_SCHEMA_INVALID_DENIED)
      case Some(response) =>
        if !env.responseConforms(action, response) then DENIED(RESPONSE_SCHEMA_INVALID_DENIED)
        else if env.byteLength(response) > action.maxResponseBytes then DENIED(RESOURCE_BOUNDS_DENIED)
        else if call.commit.throws then AMBIGUOUS
        else EXECUTED(response)
  }

  /** The outcome of a reserved execution. A body is a plain value, so its snapshot is the body again. */
  function AttemptOutcome(env: Env, action: Action, t: Ticket, call: Call): BrokerOutcome {
    if !env.requestConforms(action, t.body) || env.digestText(t.body) != t.requestDigest
    then DENIED(REQUEST_SNAPSHOT_INVALID_DENIED)
    else AnsweredOutcome(env, action, call)
  }

  function OutcomeOf(env: Env, entries: Entries, call: Call): BrokerOutcome {
    var issue := BrokerIssue(env, call.catalogue, call.activation, call.policy, call.decision, call.observedAt);
    if issue.Some? then DENIED(issue.value)
    else if RequestId(call) in entries then
      DENIED(if entries[RequestId(call)] == IN_FLIGHT then REPLAY_IN_FLIGHT_DENIED else REPLAY_CONSUMED_DENIED)
    else
      var t := call.decision.core.ticket.value;
      AttemptOutcome(env, FindAction(call.catalogue.actions, t.actionId).value, t, call)
  }

  lemma AdmittedIsFaithful(env: Env, c: Catalogue, a: Activation, p: Policy, d: Decision, observedAt: int)
    requires BrokerIssue(env, c, a, p, d, observedAt).None?
    ensures var t := d.core.ticket.value;
      && env.requestConforms(FindAction(c.actions, t.actionId).value, t.body)
      && env.digestText(t.body) == t.requestDigest
  {}

  /** The refusal of an unfaithful snapshot never fires: an admitted call under an unused id is decided
      by clock and executor alone. */
  lemma AdmittedIsAnswered(env: Env, entries: Entries, call: Call)
    requires BrokerIssue(env, call.catalogue, call.activation, call.policy, call.decision, call.observedAt).None?
    requires RequestId(call) !in entries
    ensures OutcomeOf(env, entries, call)
         == AnsweredOutcome(env, FindAction(call.catalogue.actions, call.decision.core.ticket.value.actionId).value, call)
  {
    AdmittedIsFaithful(env, call.catalogue, call.activation, call.policy, call.decision, call.observedAt);
  }

  /** Nothing is committed but for a ticket whose tenant is entitled to its action at that time. */
  lemma CommittedMeansEntitled(env: Env, entries: Entries, call: Call)
    requires !OutcomeOf(env, entries, call).DENIED?
    ensures call.decision.core.ticket.Some?
    ensures var t := call.decision.core.ticket.value; var found := FindAction(call.catalogue.actions, t.actionId);
      && found.Some? && t.requestId !in entries
      && Entitled(call.catalogue, call.activation, call.policy, found.value, t.tenant, call.observedAt)
      && env.requestConforms(found.value, t.body)
  {
    BrokerAdmitsEntitled(env, call.catalogue, call.activation, call.policy, call.decision, call.observedAt);
  }

  /** A decision the gateway allowed, presented before expiry under an unused request id, is refused
      only for what the clock, the executor or its response do. */
  lemma AllowedRunsUnlessEnvironmentFails(env: Env, entries: Entries, call: Call, r: Request, t0: int)
    requires env.Sound() && t0 <= call.observedAt
    requires call.decision == AdmitAtGateway(env, call.catalogue, call.activation, call.policy, r, t0)
    requires call.decision.core.outcome == ALLOW
    requires call.observedAt < call.policy.expiresAt && call.observedAt < call.activation.expiresAt
    requires r.requestId !in entries
    ensures FindAction(call.catalogue.actions, r.actionId).Some?
    ensures OutcomeOf(env, entries, call)
         == AnsweredOutcome(env, FindAction(call.catalogue.actions, r.actionId).value, call)
  {
    AllowedIsAdmittedUntilExpiry(env, call.catalogue, call.activation, call.policy, r, t0, call.observedAt);
    AdmittedIsAnswered(env, entries, call);
  }
}
