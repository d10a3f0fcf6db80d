/** Admission of capability executions, first at the gateway and again at the broker, as two chains
    of checks over the same catalogue, policy and activation. */
module CapabilityAdmission {
  import opened Options

  datatype Issue =
    | ACTION_DIGEST_MISMATCH_DENIED
    | ACTION_INACTIVE_DENIED
    | ACTION_UNKNOWN_DENIED
    | ACTION_VERSION_STALE_DENIED
    | ACTIVATION_AUTHORIZATION_INVALID_DENIED
    | ACTIVATION_STALE_DENIED
    | BROKER_DECISION_INVALID_DENIED
    | CATALOGUE_DIGEST_MISMATCH_DENIED
    | CATALOGUE_SCHEMA_INVALID_DENIED
    | CATALOGUE_VERSION_STALE_DENIED
    | CROSS_TENANT_DENIED
    | EVIDENCE_SINK_MISSING_DENIED
    | POLICY_BINDING_MISMATCH_DENIED
    | POLICY_STALE_DENIED
    | PREPARED_EFFECT_INVALID_DENIED
    | REPLAY_CONSUMED_DENIED
    | REPLAY_IN_FLIGHT_DENIED
    | REQUEST_RESOURCE_DENIED
    | REQUEST_SCHEMA_INVALID_DENIED
    | REQUEST_SNAPSHOT_INVALID_DENIED
    | RESOURCE_BOUNDS_DENIED
    | RESPONSE_SCHEMA_INVALID_DENIED

  datatype Action = Action(actionId: string, version: string, digest: string, resource: string,
                           maxRequestBytes: nat, maxExecutionMs: real, maxResponseBytes: nat)

  datatype Catalogue = Catalogue(version: string, actions: seq<Action>, digest: string)

  datatype Policy = Policy(policyId: string, version: string, tenant: string, actionIds: seq<string>,
                           maintainerIds: seq<string>, validFrom: int, expiresAt: int, digest: string)

  datatype Activation = Activation(
    activationId: string, catalogueVersion: string, catalogueDigest: string, actionId: string, actionVersion: string,
    actionDigest: string, tenant: string, maintainerId: string, authorizedAt: int, expiresAt: int, digest: string)

  datatype Sink = Sink(sinkType: string, sinkId: string)

  datatype Request = Request(
    schemaVersion: string, catalogueVersion: string, catalogueDigest: string, actionId: string, actionVersion: string,
    actionDigest: string, resource: string, tenant: string, workloadIdentity: string, userIdentity: string,
    policyDigest: string, correlationId: string, requestId: string, evidenceSink: Sink, body: string)

  datatype Ticket = Ticket(
    catalogueVersion: string, catalogueDigest: string, actionId: string, actionVersion: string, actionDigest: string,
    activationDigest: string, policyId: string, policyVersion: string, policyDigest: string, tenant: string,
    correlationDigest: string, requestId: string, requestDigest: string, evidenceSink: Sink, body: string)

  /** What a decision repeats of its request. */
  datatype Readback = Readback(catalogueVersion: string, catalogueDigest: string, actionId: string,
                               actionVersion: string, actionDigest: string, correlationDigest: string,
                               requestDigest: string)

  datatype Outcome = ALLOW | DENY

  datatype DecisionCore = DecisionCore(outcome: Outcome, readback: Readback, ticket: Option<Ticket>, issues: seq<Issue>)

  datatype Decision = Decision(core: DecisionCore, decisionDigest: string)

  /** Hashes, shape tests, JSON schema validation and text size. */
  datatype Env = Env(
    isDigest: string -> bool,
    isBoundId: (string, string) -> bool,
    isCorrelationId: string -> bool,
    digestText: string -> string,
    digestDecision: DecisionCore -> string,
    catalogueShape: Catalogue -> bool,
    catalogueDigest: Catalogue -> string,
    policyShape: Policy -> bool,
    policyDigest: Policy -> string,
    activationShape: Activation -> bool,
    activationDigest: Activation -> string,
    requestConforms: (Action, string) -> bool,
    responseConforms: (Action, string) -> bool,
    byteLength: string -> nat)
  {
    ghost predicate Sound() {
      && (forall t :: isDigest(digestText(t)))
      && (forall d :: isDigest(digestDecision(d)))
    }
  }

  const REQUEST_SCHEMA := "chimpmaera.capability/execution-request/v1"

  const VERSION_ONE := "1.0.0"

  const SYNTHETIC_MEMORY := "SYNTHETIC_MEMORY"

  // ---------------------------------------------------------------- shared verifications

  function VerifyCatalogue(env: Env, c: Catalogue): Option<Issue> {
    if !env.isDigest(c.digest) || !(forall a | a in c.actions :: env.isDigest(a.digest)) || !env.catalogueShape(c)
    then Some(CATALOGUE_SCHEMA_INVALID_DENIED)
    else if env.catalogueDigest(c) != c.digest then Some(CATALOGUE_DIGEST_MISMATCH_DENIED)
    else None
  }

  function VerifyPolicy(env: Env, p: Policy, observedAt: int): Option<Issue> {
    if !env.isBoundId(p.policyId, "policy") || p.version != VERSION_ONE || !env.isDigest(p.digest)
      || !env.isBoundId(p.tenant, "tenant") || !env.policyShape(p) || env.policyDigest(p) != p.digest
    then Some(POLICY_BINDING_MISMATCH_DENIED)
    else if p.validFrom > observedAt || p.expiresAt <= observedAt then Some(POLICY_STALE_DENIED)
    else None
  }

  function FindAction(actions: seq<Action>, actionId: string): (r: Option<Action>)
    ensures r.Some? ==> r.value in actions && r.value.actionId == actionId
  {
    if actions == [] then None
    else if actions[0].actionId == actionId then Some(actions[0])
    else FindAction(actions[1..], actionId)
  }

  function VerifyActivation(env: Env, a: Activation, c: Catalogue, p: Policy, observedAt: int): Option<Issue> {
    var action := FindAction(c.actions, a.actionId);
    if !env.isDigest(a.digest) || !env.activationShape(a) || env.activationDigest(a) != a.digest
    then Some(ACTIVATION_AUTHORIZATION_INVALID_DENIED)
    else if a.tenant != p.tenant then Some(CROSS_TENANT_DENIED)
    else if a.maintainerId !in p.maintainerIds then Some(ACTIVATION_AUTHORIZATION_INVALID_DENIED)
    else if a.authorizedAt > observedAt || a.expiresAt <= observedAt then Some(ACTIVATION_STALE_DENIED)
    else if a.catalogueVersion != c.version then Some(CATALOGUE_VERSION_STALE_DENIED)
    else if a.catalogueDigest != c.digest then Some(CATALOGUE_DIGEST_MISMATCH_DENIED)
    else if action.None? then Some(ACTION_UNKNOWN_DENIED)
    else if a.actionVersion != action.value.version then Some(ACTION_VERSION_STALE_DENIED)
    else if a.actionDigest != action.value.digest then Some(ACTION_DIGEST_MISMATCH_DENIED)
    else None
  }

  // ---------------------------------------------------------------- the gateway

  function ReadbackOf(env: Env, r: Request): Readback {
    Readback(r.catalogueVersion, r.catalogueDigest, r.actionId, r.actionVersion, r.actionDigest,
             env.digestText(r.correlationId), env.digestText(r.body))
  }

  predicate RequestShape(env: Env, r: Request) {
    && r.schemaVersion == REQUEST_SCHEMA
    && env.isDigest(r.policyDigest)
    && env.isBoundId(r.tenant, "tenant")
    && env.isBoundId(r.workloadIdentity, "workload")
    && env.isBoundId(r.userIdentity, "user")
    && env.isCorrelationId(r.correlationId)
    && env.isBoundId(r.requestId, "request")
    && r.evidenceSink.sinkType == SYNTHETIC_MEMORY
    && env.isBoundId(r.evidenceSink.sinkId, "evidence")
  }

  /** The first reason to refuse a request at the gateway. */
  function GatewayIssue(env: Env, c: Catalogue, a: Activation, p: Policy, r: Request, observedAt: int): Option<Issue> {
    var catalogueIssue := VerifyCatalogue(env, c);
    var policyIssue := VerifyPolicy(env, p, observedAt);
    var found := FindAction(c.actions, r.actionId);
    if catalogueIssue.Some? then catalogueIssue
    else if policyIssue.Some? then policyIssue
    else if !RequestShape(env, r) then Some(REQUEST_SCHEMA_INVALID_DENIED)
    else if r.catalogueVersion != c.version then Some(CATALOGUE_VERSION_STALE_DENIED)
    else if r.catalogueDigest != c.digest then Some(CATALOGUE_DIGEST_MISMATCH_DENIED)
    else if found.None? then Some(ACTION_UNKNOWN_DENIED)
    else
      var action := found.value;
      if r.actionVersion != action.version then Some(ACTION_VERSION_STALE_DENIED)
      else if r.actionDigest != action.digest then Some(ACTION_DIGEST_MISMATCH_DENIED)
      else if r.resource != action.resource then Some(REQUEST_RESOURCE_DENIED)
      else if r.tenant != p.tenant then Some(CROSS_TENANT_DENIED)
      else if action.actionId !in p.actionIds || r.policyDigest != p.digest then Some(POLICY_BINDING_MISMATCH_DENIED)
      else
        var activationIssue := VerifyActivation(env, a, c, p, observedAt);
        if activationIssue.Some? then activationIssue
        else if a.actionId != action.actionId then Some(ACTION_INACTIVE_DENIED)
        else if !env.requestConforms(action, r.body) then Some(REQUEST_SCHEMA_INVALID_DENIED)
        else if env.byteLength(r.body) > action.maxRequestBytes then Some(RESOURCE_BOUNDS_DENIED)
        else None
  }

  function TicketFor(env: Env, c: Catalogue, a: Activation, p: Policy, r: Request): Ticket {
    var readback := ReadbackOf(env, r);
    Ticket(c.version, c.digest, r.actionId, r.actionVersion, r.actionDigest, a.digest, p.policyId, p.version, p.digest,
           r.tenant, readback.correlationDigest, r.requestId, readback.requestDigest, r.evidenceSink, r.body)
  }

  function SealDecision(env: Env, core: DecisionCore): Decision {
    Decision(core, env.digestDecision(core))
  }

  function AdmitAtGateway(env: Env, c: Catalogue, a: Activation, p: Policy, r: Request, observedAt: int): Decision {
    match GatewayIssue(env, c, a, p, r, observedAt)
    case Some(issue) => SealDecision(env, DecisionCore(DENY, ReadbackOf(env, r), None, [issue]))
    case None => SealDecision(env, DecisionCore(ALLOW, ReadbackOf(env, r), Some(TicketFor(env, c, a, p, r)), []))
  }

  // ---------------------------------------------------------------- the broker

  predicate ValidTicket(env: Env, t: Ticket) {
    && env.isDigest(t.catalogueDigest)
    && env.isDigest(t.actionDigest)
    && env.isDigest(t.activationDigest)
    && env.isBoundId(t.policyId, "policy")
    && t.policyVersion == VERSION_ONE
    && env.isDigest(t.policyDigest)
    && env.isBoundId(t.tenant, "tenant")
    && env.isDigest(t.correlationDigest)
    && env.isBoundId(t.requestId, "request")
    && env.isDigest(t.requestDigest)
    && t.evidenceSink.sinkType == SYNTHETIC_MEMORY
    && env.isBoundId(t.evidenceSink.sinkId, "evidence")
  }

  predicate VerifyDecision(env: Env, d: Decision) {
    && env.isDigest(d.decisionDigest)
    && env.digestDecision(d.core) == d.decisionDigest
    && if d.core.outcome == ALLOW then
         && d.core.ticket.Some?
         && var t := d.core.ticket.value;
         && ValidTicket(env, t)
         && d.core.issues == []
         && d.core.readback == Readback(t.catalogueVersion, t.catalogueDigest, t.actionId, t.actionVersion,
                                        t.actionDigest, t.correlationDigest, t.requestDigest)
       else d.core.ticket.None?
  }

  /** The first reason to refuse a gateway decision before the replay store is consulted. */
  function BrokerIssue(env: Env, c: Catalogue, a: Activation, p: Policy, d: Decision, observedAt: int): Option<Issue> {
    if !VerifyDecision(env, d) || d.core.ticket.None? then Some(BROKER_DECISION_INVALID_DENIED)
    else
      var t := d.core.ticket.value;
      var catalogueIssue := VerifyCatalogue(env, c);
      var policyIssue := VerifyPolicy(env, p, observedAt);
      var activationIssue := VerifyActivation(env, a, c, p, observedAt);
      var found := FindAction(c.actions, t.actionId);
      if catalogueIssue.Some? then catalogueIssue
      else if policyIssue.Some? then policyIssue
      else if activationIssue.Some? then activationIssue
      else if found.None? then Some(ACTION_UNKNOWN_DENIED)
      else if t.catalogueVersion != c.version then Some(CATALOGUE_VERSION_STALE_DENIED)
      else if t.catalogueDigest != c.digest then Some(CATALOGUE_DIGEST_MISMATCH_DENIED)
      else TicketIssue(env, found.value, a, p, t)
  }

  function TicketIssue(env: Env, action: Action, a: Activation, p: Policy, t: Ticket): Option<Issue> {
    if t.actionVersion != action.version then Some(ACTION_VERSION_STALE_DENIED)
    else if t.actionDigest != action.digest then Some(ACTION_DIGEST_MISMATCH_DENIED)
    else if t.activationDigest != a.digest || a.actionId != action.actionId
    then Some(ACTIVATION_AUTHORIZATION_INVALID_DENIED)
    else if t.policyId != p.policyId || t.policyVersion != p.version || t.policyDigest != p.digest
      || action.actionId !in p.actionIds
    then Some(POLICY_BINDING_MISMATCH_DENIED)
    else if t.tenant != p.tenant then Some(CROSS_TENANT_DENIED)
    else if t.evidenceSink.sinkType != SYNTHETIC_MEMORY then Some(EVIDENCE_SINK_MISSING_DENIED)
    else if env.digestText(t.body) != t.requestDigest || !env.requestConforms(action, t.body)
    then Some(REQUEST_SCHEMA_INVALID_DENIED)
    else None
  }

  // ---------------------------------------------------------------- who is entitled

  /** At this time a live policy and a live activation, authorised by one of the policy's maintainers, let
      this tenant use this action of this catalogue. */
  predicate Entitled(c: Catalogue, a: Activation, p: Policy, action: Action, tenant: string, observedAt: int) {
    && FindAction(c.actions, action.actionId) == Some(action)
    && a.tenant == p.tenant == tenant
    && a.maintainerId in p.maintainerIds
    && action.actionId in p.actionIds
    && (a.actionId, a.actionVersion, a.actionDigest) == (action.actionId, action.version, action.digest)
    && (a.catalogueVersion, a.catalogueDigest) == (c.version, c.digest)
    && p.validFrom <= observedAt < p.expiresAt
    && a.authorizedAt <= observedAt < a.expiresAt
  }

  /** The three documents are intact. */
  predicate Intact(env: Env, c: Catalogue, a: Activation, p: Policy) {
    && VerifyCatalogue(env, c).None?
    && env.isDigest(a.digest) && env.activationShape(a) && env.activationDigest(a) == a.digest
    && env.isBoundId(p.policyId, "policy") && p.version == VERSION_ONE && env.isDigest(p.digest)
    && env.isBoundId(p.tenant, "tenant") && env.policyShape(p) && env.policyDigest(p) == p.digest
  }

  /** The request names exactly this action of this catalogue, its resource and this policy, and its body
      conforms and fits. */
  predicate RequestFits(env: Env, c: Catalogue, p: Policy, action: Action, r: Request) {
    && RequestShape(env, r)
    && (r.catalogueVersion, r.catalogueDigest) == (c.version, c.digest)
    && (r.actionId, r.actionVersion, r.actionDigest) == (action.actionId, action.version, action.digest)
    && r.resource == action.resource && r.policyDigest == p.digest
    && env.requestConforms(action, r.body) && env.byteLength(r.body) <= action.maxRequestBytes
  }

  /** The gateway allows exactly what is entitled and fits, whatever the order of its checks. */
  lemma GatewayAllowsExactly(env: Env, c: Catalogue, a: Activation, p: Policy, r: Request, observedAt: int)
    ensures AdmitAtGateway(env, c, a, p, r, observedAt).core.outcome == ALLOW
      <==> Intact(env, c, a, p) && exists action: Action ::
             Entitled(c, a, p, action, r.tenant, observedAt) && RequestFits(env, c, p, action, r)
  {
    var found := FindAction(c.actions, r.actionId);
    if AdmitAtGateway(env, c, a, p, r, observedAt).core.outcome == ALLOW {
      assert Entitled(c, a, p, found.value, r.tenant, observedAt) && RequestFits(env, c, p, found.value, r);
    }
  }

  /** What the broker admits is entitled at the time of admission, and conforms. */
  lemma BrokerAdmitsEntitled(env: Env, c: Catalogue, a: Activation, p: Policy, d: Decision, observedAt: int)
    requires BrokerIssue(env, c, a, p, d, observedAt).None?
    ensures d.core.ticket.Some?
    ensures var t := d.core.ticket.value; var found := FindAction(c.actions, t.actionId);
      && found.Some?
      && Intact(env, c, a, p) && Entitled(c, a, p, found.value, t.tenant, observedAt)
      && (t.actionVersion, t.actionDigest) == (found.value.version, found.value.digest)
      && (t.activationDigest, t.policyDigest) == (a.digest, p.digest)
      && env.requestConforms(found.value, t.body)
  {}

  // ---------------------------------------------------------------- gateway and broker agree

  /** Every gateway decision verifies, whatever was asked. */
  lemma GatewayDecisionVerifies(env: Env, c: Catalogue, a: Activation, p: Policy, r: Request, observedAt: int)
    requires env.Sound()
    ensures VerifyDecision(env, AdmitAtGateway(env, c, a, p, r, observedAt))
  {
    if GatewayIssue(env, c, a, p, r, observedAt).None? {
      assert FindAction(c.actions, r.actionId).value in c.actions;
    }
  }

  /** The broker's admission of what the gateway allowed depends on the clock alone: presented later
      with the same catalogue, activation and policy, it is admitted exactly until one expires. */
  lemma AllowedIsAdmittedUntilExpiry(env: Env, c: Catalogue, a: Activation, p: Policy, r: Request, t0: int, t1: int)
    requires env.Sound() && t0 <= t1
    requires AdmitAtGateway(env, c, a, p, r, t0).core.outcome == ALLOW
    ensures BrokerIssue(env, c, a, p, AdmitAtGateway(env, c, a, p, r, t0), t1) ==
      if p.expiresAt <= t1 then Some(POLICY_STALE_DENIED)
      else if a.expiresAt <= t1 then Some(ACTIVATION_STALE_DENIED)
      else None
  {
    GatewayDecisionVerifies(env, c, a, p, r, t0);
  }

  /** A decision that verifies and carries a ticket was an ALLOW; a denial never reaches execution. */
  lemma DeniedNeverAdmitted(env: Env, c: Catalogue, a: Activation, p: Policy, r: Request, t0: int, t1: int,
                            c': Catalogue, a': Activation, p': Policy)
    requires AdmitAtGateway(env, c, a, p, r, t0).core.outcome == DENY
    ensures BrokerIssue(env, c', a', p', AdmitAtGateway(env, c, a, p, r, t0), t1) == Some(BROKER_DECISION_INVALID_DENIED)
  {}
}
