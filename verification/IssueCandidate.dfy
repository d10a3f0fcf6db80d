/** The life of an issue candidate, from observation to a confirmed and linked issue. Every step gives a
    new candidate whose history has one more link; a step that throws leaves the old candidate as it was.
    The answers of the two adapters are parameters of the steps that await them. */
module IssueCandidate {
  import opened Numbers
  import opened Options
  import opened Sequences
  import opened Text
  import Sorting

  type Hash = string

  datatype Content = Content(title: Text, body: Text)

  datatype State =
    | Observed | Drafted | Sanitized | Classified | Deduplicated | OwnerReviewed | Submitted | ReadbackConfirmed
    | Linked | Resolved | Quarantined | DuplicateBlocked | ReviewRequired | RecoveryRequired

  datatype Classification = PUBLIC | PRIVATE | SECURITY

  datatype Route = PUBLIC_PREFLIGHT | PRIVATE_REVIEW | SECURITY_POLICY

  datatype RecoveryCode =
    SUBMIT_PARTIAL | SUBMIT_TIMEOUT | RECEIPT_DENIED | READBACK_MISSING | READBACK_MISMATCH | READBACK_AMBIGUOUS

  datatype Redaction =
    | SECRET_OR_TOKEN | PRIVATE_PATH | TENANT_OR_USER_IDENTITY | INTERNAL_HOST | SESSION_OR_JOB_ID | EXPLOIT_PAYLOAD
    | TEXT_NORMALIZED

  datatype Code =
    | OBSERVED | DRAFTED | QUARANTINED(hits: set<Redaction>) | SANITIZED | CLASSIFICATION_DENIED(as_: Classification)
    | CLASSIFIED_PUBLIC | EXACT_DUPLICATE_BLOCKED | AMBIGUOUS_SIMILARITY_REVIEW_REQUIRED | NO_DUPLICATE
    | OWNER_DEDUPE_OVERRIDE | OWNER_DEDUPE_BLOCK | EXACT_ACTION_APPROVED | SUBMITTED | READBACK_CONFIRMED
    | RECOVERY(code: RecoveryCode) | LINKED_TO_PARENT | LOCALLY_RESOLVED_NO_REMOTE_CLOSE

  datatype Denial =
    | ISSUE_TIME_DENIED | ISSUE_TRANSITION_DENIED | ISSUE_CONTENT_SCHEMA_DENIED | ISSUE_CANDIDATE_ID_DENIED
    | DUPLICATE_SEARCH_ADAPTER_DENIED | DUPLICATE_SEARCH_RESULT_DENIED | ISSUE_PREVIEW_DENIED
    | ISSUE_APPROVAL_SCHEMA_DENIED | ISSUE_APPROVAL_DENIED | ISSUE_SUBMIT_ADAPTER_DENIED
    | ISSUE_READBACK_ADAPTER_DENIED | ISSUE_PARENT_LINK_DENIED | ADAPTER_FAILED

  datatype EventCore = EventCore(
    sequence: nat, state: State, code: Code, atMs: int, candidateId: string, contentDigest: Hash,
    approvalDigest: Option<Hash>, attemptId: Option<string>, receiptDigest: Option<Hash>,
    readbackDigest: Option<Hash>, previousEventDigest: Option<Hash>)

  datatype Event = Event(core: EventCore, eventDigest: Hash)

  datatype Remote = Remote(id: string, url: string)

  datatype Candidate = Candidate(
    candidateId: string, content: Content, contentDigest: Hash, classification: Option<Classification>,
    route: Option<Route>, redactions: set<Redaction>, duplicateSearchDigest: Option<Hash>,
    approvalDigest: Option<Hash>, attemptId: Option<string>, receiptDigest: Option<Hash>,
    readbackDigest: Option<Hash>, remote: Option<Remote>, state: State, recoveryCode: Option<RecoveryCode>,
    publicBytesEmitted: nat, history: seq<Event>)

  datatype Match = Match(remoteId: string, contentDigest: Hash, similarityPermille: real)

  datatype Search = Search(searchedAtMs: real, destination: string, queryDigest: Hash, matches: seq<Match>)

  datatype ApprovalCore = ApprovalCore(
    approvalId: string, candidateId: string, contentDigest: Hash, destination: string, duplicateSearchDigest: Hash,
    issuedAtMs: real, expiresAtMs: real, nonce: string)

  datatype Approval = Approval(core: ApprovalCore, approvalDigest: Hash)

  datatype ApprovalInput = ApprovalInput(approvalId: string, nonce: string, issuedAtMs: real, expiresAtMs: real)

  datatype SubmitStatus = ACCEPTED | PARTIAL

  datatype ReceiptCore = ReceiptCore(
    schemaKnown: bool, status: SubmitStatus, attemptId: string, idempotencyKey: Hash, candidateId: string,
    contentDigest: Hash, approvalDigest: Hash, destination: string, remote: Remote)

  datatype Receipt = Receipt(core: ReceiptCore, receiptDigest: Hash)

  datatype ReadbackStatus = FOUND | MISSING | AMBIGUOUS

  datatype ReadbackCore = ReadbackCore(
    schemaKnown: bool, status: ReadbackStatus, attemptId: string, idempotencyKey: Hash, remote: Remote,
    content: Option<Content>)

  datatype Readback = Readback(core: ReadbackCore, readbackDigest: Hash)

  /** What an adapter call came to: a rejection, something that is no answer at all, or an answer. */
  datatype Answer<T> = Rejected | Unreadable | Answered(value: T)

  /** The adapter handed to a step: its name, and whether it declares the two capabilities. */
  datatype Adapter = Adapter(adapterId: string, declares: bool)

  /** Hashes, shapes, the forbidden patterns and the normal form of text. */
  datatype Env = Env(
    isId: string -> bool, isDigest: Hash -> bool, isDestination: string -> bool, isNonce: string -> bool,
    isRemoteUrl: string -> bool, leqId: (string, string) -> bool,
    hits: Content -> set<Redaction>, normalForm: Content -> Content, byteLength: Content -> nat,
    digestContent: Content -> Hash, digestEvent: EventCore -> Hash,
    digestSearch: (string, string, Hash, seq<Match>) -> Hash, digestApproval: ApprovalCore -> Hash,
    digestReceipt: ReceiptCore -> Hash, digestReadback: ReadbackCore -> Hash,
    attemptId: (string, Hash) -> string, idempotencyKey: (string, Hash, Hash, string) -> Hash)

  const PARENT_ISSUE := 39

  predicate IsSafeInteger(t: real) {
    t == t.Floor as real && -MAX_SAFE_INTEGER <= t.Floor <= MAX_SAFE_INTEGER
  }

  predicate ContentFits(c: Content) {
    3 <= |c.title| <= 160 && 3 <= |c.body| <= 20000
  }

  function Joined(c: Content): Text {
    c.title + [10] + c.body
  }

  // ---------------------------------------------------------------- the chain

  function PreviousDigest(history: seq<Event>): Option<Hash> {
    if history == [] then None else Some(history[|history| - 1].eventDigest)
  }

  function NextEvent(env: Env, next: Candidate, code: Code, atMs: int): Event {
    var core := EventCore(|next.history| + 1, next.state, code, atMs, next.candidateId, next.contentDigest,
                          next.approvalDigest, next.attemptId, next.receiptDigest, next.readbackDigest,
                          PreviousDigest(next.history));
    Event(core, env.digestEvent(core))
  }

  /** next is the patched candidate, its history still the old one; only a whole time gets into an event. */
  function Append(env: Env, next: Candidate, code: Code, atMs: real): Result<Candidate, Denial> {
    if !IsSafeInteger(atMs) || atMs < 0.0 then Err(ISSUE_TIME_DENIED)
    else Ok(next.(history := next.history + [NextEvent(env, next, code, atMs.Floor)]))
  }

  predicate EventFits(env: Env, candidateId: string, history: seq<Event>, i: nat)
    requires i < |history|
  {
    && history[i].core.sequence == i + 1
    && history[i].core.candidateId == candidateId
    && history[i].core.previousEventDigest == PreviousDigest(history[..i])
    && env.digestEvent(history[i].core) == history[i].eventDigest
  }

  predicate VerifyHistory(env: Env, c: Candidate) {
    && c.history != []
    && c.history[|c.history| - 1].core.state == c.state
    && c.history[|c.history| - 1].core.contentDigest == c.contentDigest
    && forall i | 0 <= i < |c.history| :: EventFits(env, c.candidateId, c.history, i)
  }

  // ---------------------------------------------------------------- the steps

  function Observe(env: Env, candidateId: string, content: Content, atMs: real): Result<Candidate, Denial> {
    if !env.isId(candidateId) then Err(ISSUE_CANDIDATE_ID_DENIED)
    else if !ContentFits(content) then Err(ISSUE_CONTENT_SCHEMA_DENIED)
    else
      Append(env, Candidate(candidateId, content, env.digestContent(content), None, None, {}, None, None, None, None,
                            None, None, Observed, None, 0, []),
             OBSERVED, atMs)
  }

  function Draft(env: Env, c: Candidate, content: Content, atMs: real): Result<Candidate, Denial> {
    if !c.state.Observed? then Err(ISSUE_TRANSITION_DENIED)
    else if !ContentFits(content) then Err(ISSUE_CONTENT_SCHEMA_DENIED)
    else Append(env, c.(state := Drafted, content := content, contentDigest := env.digestContent(content)), DRAFTED, atMs)
  }

  function Sanitize(env: Env, c: Candidate, atMs: real): Result<Candidate, Denial> {
    if !c.state.Drafted? then Err(ISSUE_TRANSITION_DENIED)
    else
      var hits := env.hits(c.content);
      if hits != {} then
        var severe := EXPLOIT_PAYLOAD in hits || SECRET_OR_TOKEN in hits;
        Append(env, c.(state := Quarantined, classification := Some(if severe then SECURITY else PRIVATE),
                       route := Some(if severe then SECURITY_POLICY else PRIVATE_REVIEW), redactions := hits,
                       publicBytesEmitted := 0),
               QUARANTINED(hits), atMs)
      else
        var clean := env.normalForm(c.content);
        if !ContentFits(clean) then Err(ISSUE_CONTENT_SCHEMA_DENIED)
        else
          Append(env, c.(state := Sanitized, content := clean, contentDigest := env.digestContent(clean),
                         redactions := if Joined(c.content) == Joined(clean) then {} else {TEXT_NORMALIZED}),
                 SANITIZED, atMs)
  }

  function Classify(env: Env, c: Candidate, classification: Classification, atMs: real): Result<Candidate, Denial> {
    if !c.state.Sanitized? then Err(ISSUE_TRANSITION_DENIED)
    else if classification != PUBLIC then
      Append(env, c.(state := Quarantined, classification := Some(classification),
                     route := Some(if classification == SECURITY then SECURITY_POLICY else PRIVATE_REVIEW),
                     publicBytesEmitted := 0),
             CLASSIFICATION_DENIED(classification), atMs)
    else
      Append(env, c.(state := Classified, classification := Some(PUBLIC), route := Some(PUBLIC_PREFLIGHT)),
             CLASSIFIED_PUBLIC, atMs)
  }

  predicate MatchFits(env: Env, m: Match) {
    env.isId(m.remoteId) && env.isDigest(m.contentDigest) && IsSafeInteger(m.similarityPermille)
    && 0.0 <= m.similarityPermille <= 1000.0
  }

  function ByRemoteId(env: Env): (Match, Match) -> bool {
    Sorting.ByKey(env.leqId, (m: Match) => m.remoteId)
  }

  function SimilarityVerdict(contentDigest: Hash, matches: seq<Match>): (v: (State, Code))
    ensures v.0 in {DuplicateBlocked, ReviewRequired, Deduplicated}
    ensures v.0 == Deduplicated <==>
      forall m | m in matches :: m.contentDigest != contentDigest && m.similarityPermille < 700.0
  {
    if exists m :: m in matches && (m.contentDigest == contentDigest || m.similarityPermille == 1000.0) then
      (DuplicateBlocked, EXACT_DUPLICATE_BLOCKED)
    else if exists m :: m in matches && m.similarityPermille >= 700.0 then
      (ReviewRequired, AMBIGUOUS_SIMILARITY_REVIEW_REQUIRED)
    else (Deduplicated, NO_DUPLICATE)
  }

  function Deduplicate(env: Env, c: Candidate, destination: string, adapter: Option<Adapter>, answer: Answer<Search>)
    : Result<Candidate, Denial>
  {
    if !c.state.Classified? then Err(ISSUE_TRANSITION_DENIED)
    else if !env.isDestination(destination) || adapter.None? || !env.isId(adapter.value.adapterId) then
      Err(DUPLICATE_SEARCH_ADAPTER_DENIED)
    else if !answer.Answered? then Err(ADAPTER_FAILED)
    else
      var found := answer.value;
      if !IsSafeInteger(found.searchedAtMs) || found.destination != destination || found.queryDigest != c.contentDigest
         || exists m :: m in found.matches && !MatchFits(env, m)
      then Err(DUPLICATE_SEARCH_RESULT_DENIED)
      else
        var matches := Sorting.Sort(ByRemoteId(env), found.matches);
        var digest := env.digestSearch(adapter.value.adapterId, destination, found.queryDigest, matches);
        var (state, code) := SimilarityVerdict(c.contentDigest, matches);
        Append(env, c.(state := state, duplicateSearchDigest := Some(digest)), code, found.searchedAtMs)
  }

  function ResolveAmbiguous(env: Env, c: Candidate, proceed: bool, atMs: real): Result<Candidate, Denial> {
    if !c.state.ReviewRequired? then Err(ISSUE_TRANSITION_DENIED)
    else if proceed then Append(env, c.(state := Deduplicated), OWNER_DEDUPE_OVERRIDE, atMs)
    else Append(env, c.(state := DuplicateBlocked), OWNER_DEDUPE_BLOCK, atMs)
  }

  predicate ApprovalInputFits(env: Env, input: ApprovalInput) {
    && env.isId(input.approvalId) && env.isNonce(input.nonce)
    && IsSafeInteger(input.issuedAtMs) && IsSafeInteger(input.expiresAtMs)
    && 0.0 <= input.issuedAtMs < input.expiresAtMs && input.expiresAtMs - input.issuedAtMs <= 300000.0
  }

  /** The approval the owner signs for a candidate. */
  function ApprovalFor(env: Env, c: Candidate, destination: string, input: ApprovalInput): Approval
    requires c.duplicateSearchDigest.Some?
  {
    var core := ApprovalCore(input.approvalId, c.candidateId, c.contentDigest, destination,
                             c.duplicateSearchDigest.value, input.issuedAtMs, input.expiresAtMs, input.nonce);
    Approval(core, env.digestApproval(core))
  }

  function Approve(env: Env, c: Candidate, destination: string, input: ApprovalInput): Result<Candidate, Denial> {
    if !c.state.Deduplicated? then Err(ISSUE_TRANSITION_DENIED)
    else if !env.isDestination(destination) || c.duplicateSearchDigest.None? then Err(ISSUE_PREVIEW_DENIED)
    else if !ApprovalInputFits(env, input) then Err(ISSUE_APPROVAL_SCHEMA_DENIED)
    else
      Append(env, c.(state := OwnerReviewed,
                     approvalDigest := Some(ApprovalFor(env, c, destination, input).approvalDigest)),
             EXACT_ACTION_APPROVED, input.issuedAtMs)
  }

  predicate ValidApproval(env: Env, c: Candidate, approval: Approval, destination: string, nowMs: real) {
    && env.digestApproval(approval.core) == approval.approvalDigest
    && c.approvalDigest == Some(approval.approvalDigest)
    && approval.core.candidateId == c.candidateId
    && approval.core.contentDigest == c.contentDigest
    && approval.core.destination == destination
    && Some(approval.core.duplicateSearchDigest) == c.duplicateSearchDigest
    && approval.core.issuedAtMs <= nowMs <= approval.core.expiresAtMs
  }

  /** The guards in front of the submit adapter. */
  function SubmitDenial(env: Env, c: Candidate, destination: string, approval: Approval, adapter: Option<Adapter>,
                        nowMs: real): Option<Denial> {
    if !c.state.OwnerReviewed? then Some(ISSUE_TRANSITION_DENIED)
    else if !env.isDestination(destination) || !ValidApproval(env, c, approval, destination, nowMs) then
      Some(ISSUE_APPROVAL_DENIED)
    else if adapter.None? || !env.isId(adapter.value.adapterId) || !adapter.value.declares then
      Some(ISSUE_SUBMIT_ADAPTER_DENIED)
    else None
  }

  predicate ReceiptFits(env: Env, c: Candidate, approval: Approval, destination: string, receipt: Receipt) {
    && env.digestReceipt(receipt.core) == receipt.receiptDigest
    && receipt.core.schemaKnown
    && receipt.core.attemptId == env.attemptId(c.candidateId, approval.approvalDigest)
    && receipt.core.idempotencyKey
         == env.idempotencyKey(c.candidateId, c.contentDigest, approval.approvalDigest, destination)
    && receipt.core.candidateId == c.candidateId
    && receipt.core.contentDigest == c.contentDigest
    && receipt.core.approvalDigest == approval.approvalDigest
    && receipt.core.destination == destination
    && env.isId(receipt.core.remote.id) && env.isRemoteUrl(receipt.core.remote.url)
  }

  function Recovering(c: Candidate, code: RecoveryCode): (Candidate, Code) {
    (c.(state := RecoveryRequired, recoveryCode := Some(code)), RECOVERY(code))
  }

  /** What a submit receipt makes of the candidate that holds the attempt. */
  function Received(env: Env, c: Candidate, destination: string, approval: Approval, receipt: Receipt): (Candidate, Code) {
    if !ReceiptFits(env, c, approval, destination, receipt) then
      Recovering(c.(receiptDigest := Some(env.digestReceipt(receipt.core))), RECEIPT_DENIED)
    else
      var next := c.(receiptDigest := Some(receipt.receiptDigest), remote := Some(receipt.core.remote));
      if receipt.core.status != ACCEPTED then Recovering(next, SUBMIT_PARTIAL)
      else (next.(state := Submitted, publicBytesEmitted := env.byteLength(c.content)), SUBMITTED)
  }

  /** What a call of the submit adapter makes of the candidate. */
  function Attempted(env: Env, c: Candidate, destination: string, approval: Approval, answer: Answer<Receipt>)
    : (Candidate, Code)
    requires !answer.Unreadable?
  {
    var next := c.(attemptId := Some(env.attemptId(c.candidateId, approval.approvalDigest)));
    match answer
    case Rejected => Recovering(next, SUBMIT_TIMEOUT)
    case Answered(receipt) => Received(env, next, destination, approval, receipt)
  }

  function Submit(env: Env, c: Candidate, destination: string, approval: Approval, adapter: Option<Adapter>,
                  answer: Answer<Receipt>, nowMs: real): Result<Candidate, Denial>
  {
    var denial := SubmitDenial(env, c, destination, approval, adapter, nowMs);
    if denial.Some? then Err(denial.value)
    else if answer.Unreadable? then Err(ADAPTER_FAILED)
    else
      var (patched, code) := Attempted(env, c, destination, approval, answer);
      Append(env, patched, code, nowMs)
  }

  /** What a readback makes of the candidate. */
  function Compared(env: Env, c: Candidate, key: Hash, readback: Readback): (Candidate, Code) {
    var read := readback.core;
    var next := c.(readbackDigest := Some(readback.readbackDigest));
    if env.digestReadback(read) != readback.readbackDigest || !read.schemaKnown
       || Some(read.attemptId) != c.attemptId || read.idempotencyKey != key || read.status == AMBIGUOUS
    then Recovering(c, READBACK_AMBIGUOUS)
    else if read.status == MISSING then Recovering(next, READBACK_MISSING)
    else if Some(read.remote) != c.remote || read.content.None?
            || env.digestContent(read.content.value) != c.contentDigest
    then Recovering(next, READBACK_MISMATCH)
    else (next.(state := ReadbackConfirmed, recoveryCode := None), READBACK_CONFIRMED)
  }

  function ReadBackPatch(env: Env, c: Candidate, key: Hash, answer: Answer<Readback>): (Candidate, Code)
    requires !answer.Unreadable?
  {
    match answer
    case Rejected => Recovering(c, READBACK_MISSING)
    case Answered(readback) => Compared(env, c, key, readback)
  }

  /** The readback adapter is asked by idempotency key alone; any adapter will do. */
  function ReadBack(env: Env, c: Candidate, destination: string, adapter: Option<Adapter>, answer: Answer<Readback>,
                    atMs: real): Result<Candidate, Denial>
  {
    if !c.state.Submitted? && !c.state.RecoveryRequired? then Err(ISSUE_TRANSITION_DENIED)
    else if adapter.None? || c.attemptId.None? || c.approvalDigest.None? || !env.isDestination(destination) then
      Err(ISSUE_READBACK_ADAPTER_DENIED)
    else if answer.Unreadable? then Err(ADAPTER_FAILED)
    else
      var key := env.idempotencyKey(c.candidateId, c.contentDigest, c.approvalDigest.value, destination);
      var (patched, code) := ReadBackPatch(env, c, key, answer);
      Append(env, patched, code, atMs)
  }

  function Link(env: Env, c: Candidate, parentIssue: int, atMs: real): Result<Candidate, Denial> {
    if !c.state.ReadbackConfirmed? then Err(ISSUE_TRANSITION_DENIED)
    else if parentIssue != PARENT_ISSUE then Err(ISSUE_PARENT_LINK_DENIED)
    else Append(env, c.(state := Linked), LINKED_TO_PARENT, atMs)
  }

  function Resolve(env: Env, c: Candidate, atMs: real): Result<Candidate, Denial> {
    if !c.state.Linked? then Err(ISSUE_TRANSITION_DENIED)
    else Append(env, c.(state := Resolved), LOCALLY_RESOLVED_NO_REMOTE_CLOSE, atMs)
  }

  // ---------------------------------------------------------------- runs

  datatype Action =
    | DoDraft(content: Content, atMs: real)
    | DoSanitize(atMs: real)
    | DoClassify(classification: Classification, atMs: real)
    | DoDeduplicate(destination: string, adapter: Option<Adapter>, search: Answer<Search>)
    | DoResolveAmbiguous(proceed: bool, atMs: real)
    | DoApprove(destination: string, input: ApprovalInput)
    | DoSubmit(destination: string, approval: Approval, adapter: Option<Adapter>, receipt: Answer<Receipt>, atMs: real)
    | DoReadBack(destination: string, adapter: Option<Adapter>, readback: Answer<Readback>, atMs: real)
    | DoLink(parentIssue: int, atMs: real)
    | DoResolve(atMs: real)

  function Step(env: Env, c: Candidate, a: Action): Result<Candidate, Denial> {
    match a
    case DoDraft(content, atMs) => Draft(env, c, content, atMs)
    case DoSanitize(atMs) => Sanitize(env, c, atMs)
    case DoClassify(classification, atMs) => Classify(env, c, classification, atMs)
    case DoDeduplicate(destination, adapter, answer) => Deduplicate(env, c, destination, adapter, answer)
    case DoResolveAmbiguous(proceed, atMs) => ResolveAmbiguous(env, c, proceed, atMs)
    case DoApprove(destination, input) => Approve(env, c, destination, input)
    case DoSubmit(destination, approval, adapter, answer, atMs) =>
      Submit(env, c, destination, approval, adapter, answer, atMs)
    case DoReadBack(destination, adapter, answer, atMs) => ReadBack(env, c, destination, adapter, answer, atMs)
    case DoLink(parentIssue, atMs) => Link(env, c, parentIssue, atMs)
    case DoResolve(atMs) => Resolve(env, c, atMs)
  }

  function Next(env: Env, c: Candidate, a: Action): Candidate {
    var r := Step(env, c, a);
    if r.Ok? then r.value else c
  }

  /** A linear run: each step works on what the last one gave. */
  function Run(env: Env, c: Candidate, actions: seq<Action>): Candidate {
    if actions == [] then c else Next(env, Run(env, c, actions[..|actions| - 1]), actions[|actions| - 1])
  }
}
