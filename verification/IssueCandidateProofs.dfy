/** What every run of the issue candidate life cycle keeps. */
module IssueCandidateProofs {
  import opened Options
  import opened Sequences
  import opened IssueCandidate
  import Sorting

  // ---------------------------------------------------------------- the life cycle

  /** Which action leads from which state to which. */
  predicate Allowed(a: Action, from: State, to: State) {
    match a
    case DoDraft(_, _) => from.Observed? && to.Drafted?
    case DoSanitize(_) => from.Drafted? && (to.Sanitized? || to.Quarantined?)
    case DoClassify(_, _) => from.Sanitized? && (to.Classified? || to.Quarantined?)
    case DoDeduplicate(_, _, _) => from.Classified? && (to.Deduplicated? || to.DuplicateBlocked? || to.ReviewRequired?)
    case DoResolveAmbiguous(_, _) => from.ReviewRequired? && (to.Deduplicated? || to.DuplicateBlocked?)
    case DoApprove(_, _) => from.Deduplicated? && to.OwnerReviewed?
    case DoSubmit(_, _, _, _, _) => from.OwnerReviewed? && (to.Submitted? || to.RecoveryRequired?)
    case DoReadBack(_, _, _, _) =>
      (from.Submitted? || from.RecoveryRequired?) && (to.ReadbackConfirmed? || to.RecoveryRequired?)
    case DoLink(_, _) => from.ReadbackConfirmed? && to.Linked?
    case DoResolve(_) => from.Linked? && to.Resolved?
  }

  ghost predicate Edge(from: State, to: State) {
    exists a :: Allowed(a, from, to)
  }

  /** The text may still change. */
  predicate Editable(s: State) {
    s.Observed? || s.Drafted?
  }

  /** The submit adapter has been called for good. */
  predicate AfterSubmit(s: State) {
    s.Submitted? || s.RecoveryRequired? || Confirmed(s)
  }

  predicate Confirmed(s: State) {
    s.ReadbackConfirmed? || s.Linked? || s.Resolved?
  }

  /** The owner has approved. */
  predicate Reviewed(s: State) {
    s.OwnerReviewed? || AfterSubmit(s)
  }

  // ---------------------------------------------------------------- the history

  /** d is c with some fields patched and one event of its own appended. */
  ghost predicate Extends(env: Env, c: Candidate, d: Candidate) {
    && d.candidateId == c.candidateId
    && exists code, atMs :: d.history == c.history + [NextEvent(env, d.(history := c.history), code, atMs)]
  }

  lemma AppendExtends(env: Env, c: Candidate, next: Candidate, code: Code, atMs: real)
    requires next.history == c.history && next.candidateId == c.candidateId
    ensures var r := Append(env, next, code, atMs);
      r.Ok? ==> Extends(env, c, r.value) && r.value.(history := c.history) == next
  {
    var r := Append(env, next, code, atMs);
    if r.Ok? {
      assert r.value.(history := c.history) == next;
    }
  }

  /** The text is the normal form of one in which no forbidden pattern was found. */
  ghost predicate Clean(env: Env, content: Content) {
    exists raw: Content :: env.hits(raw) == {} && content == env.normalForm(raw)
  }

  ghost predicate Publishable(env: Env, c: Candidate) {
    && c.contentDigest == env.digestContent(c.content)
    && (!Editable(c.state) && !c.state.Quarantined? ==> Clean(env, c.content))
    && (!Editable(c.state) && !c.state.Quarantined? && !c.state.Sanitized? ==> c.classification == Some(PUBLIC))
    && (c.state.Quarantined? ==> c.classification.Some? && c.classification != Some(PUBLIC))
    && (c.publicBytesEmitted > 0 ==> AfterSubmit(c.state) && c.remote.Some?)
  }

  function RouteOf(c: Classification): Route {
    match c
    case PUBLIC => PUBLIC_PREFLIGHT
    case PRIVATE => PRIVATE_REVIEW
    case SECURITY => SECURITY_POLICY
  }

  /** The members of a candidate agree with its state: the route is that of its classification, a recovery
      code says it needs recovery, an approval that it was reviewed and an attempt that it was submitted,
      and what is confirmed names its receipt, its remote and its readback. */
  predicate Labelled(c: Candidate) {
    && c.route == (if c.classification.None? then None else Some(RouteOf(c.classification.value)))
    && (c.recoveryCode.Some? <==> c.state.RecoveryRequired?)
    && (c.approvalDigest.Some? <==> Reviewed(c.state))
    && (c.attemptId.Some? <==> AfterSubmit(c.state))
    && (c.remote.Some? ==> c.receiptDigest.Some?)
    && (Confirmed(c.state) ==> c.remote.Some? && c.readbackDigest.Some?)
  }

  /** What one successful step does, seen from outside. */
  ghost predicate Moves(env: Env, c: Candidate, a: Action, d: Candidate) {
    && Allowed(a, c.state, d.state)
    && Extends(env, c, d)
    && (!Editable(c.state) ==> d.content == c.content && d.contentDigest == c.contentDigest)
    && (Publishable(env, c) ==> Publishable(env, d))
    && (Labelled(c) ==> Labelled(d))
  }

  /** The patched candidate before its event is appended. */
  ghost predicate Patches(env: Env, c: Candidate, a: Action, next: Candidate) {
    && Allowed(a, c.state, next.state)
    && next.history == c.history && next.candidateId == c.candidateId
    && (!Editable(c.state) ==> next.content == c.content && next.contentDigest == c.contentDigest)
    && (Publishable(env, c) ==> Publishable(env, next))
    && (Labelled(c) ==> Labelled(next))
  }

  lemma PatchMoves(env: Env, c: Candidate, a: Action, next: Candidate, code: Code, atMs: real)
    requires Patches(env, c, a, next)
    ensures var r := Append(env, next, code, atMs); r.Ok? ==> Moves(env, c, a, r.value)
  {
    AppendExtends(env, c, next, code, atMs);
  }

  lemma DraftMoves(env: Env, c: Candidate, content: Content, atMs: real)
    ensures var r := Draft(env, c, content, atMs); r.Ok? ==> Moves(env, c, DoDraft(content, atMs), r.value)
  {
    var r := Draft(env, c, content, atMs);
    if r.Ok? {
      AppendExtends(env, c, r.value.(history := c.history), r.value.history[|c.history|].core.code, atMs);
    }
  }

  lemma SanitizeMoves(env: Env, c: Candidate, atMs: real)
    ensures var r := Sanitize(env, c, atMs); r.Ok? ==> Moves(env, c, DoSanitize(atMs), r.value)
  {
    var r := Sanitize(env, c, atMs);
    if r.Ok? {
      AppendExtends(env, c, r.value.(history := c.history), r.value.history[|c.history|].core.code, atMs);
    }
  }

  lemma ClassifyMoves(env: Env, c: Candidate, classification: Classification, atMs: real)
    ensures var r := Classify(env, c, classification, atMs);
      r.Ok? ==> Moves(env, c, DoClassify(classification, atMs), r.value)
  {
    var r := Classify(env, c, classification, atMs);
    if r.Ok? {
      AppendExtends(env, c, r.value.(history := c.history), r.value.history[|c.history|].core.code, atMs);
    }
  }

  lemma SearchedPatches(env: Env, c: Candidate, a: Action, state: State, digest: Hash)
    requires a.DoDeduplicate? && c.state.Classified? && state in {DuplicateBlocked, ReviewRequired, Deduplicated}
    ensures Patches(env, c, a, c.(state := state, duplicateSearchDigest := Some(digest)))
  {}

  lemma DeduplicateMoves(env: Env, c: Candidate, a: Action)
    requires a.DoDeduplicate?
    ensures var r := Deduplicate(env, c, a.destination, a.adapter, a.search); r.Ok? ==> Moves(env, c, a, r.value)
  {
    if Deduplicate(env, c, a.destination, a.adapter, a.search).Ok? {
      var found := a.search.value;
      var matches := Sorting.Sort(ByRemoteId(env), found.matches);
      var digest := env.digestSearch(a.adapter.value.adapterId, a.destination, found.queryDigest, matches);
      var (state, code) := SimilarityVerdict(c.contentDigest, matches);
      SearchedPatches(env, c, a, state, digest);
      PatchMoves(env, c, a, c.(state := state, duplicateSearchDigest := Some(digest)), code, found.searchedAtMs);
    }
  }

  lemma ResolveAmbiguousMoves(env: Env, c: Candidate, proceed: bool, atMs: real)
    ensures var r := ResolveAmbiguous(env, c, proceed, atMs);
      r.Ok? ==> Moves(env, c, DoResolveAmbiguous(proceed, atMs), r.value)
  {
    var r := ResolveAmbiguous(env, c, proceed, atMs);
    if r.Ok? {
      AppendExtends(env, c, r.value.(history := c.history), r.value.history[|c.history|].core.code, atMs);
    }
  }

  lemma ApproveMoves(env: Env, c: Candidate, destination: string, input: ApprovalInput)
    ensures var r := Approve(env, c, destination, input);
      r.Ok? ==> Moves(env, c, DoApprove(destination, input), r.value)
  {
    var r := Approve(env, c, destination, input);
    if r.Ok? {
      AppendExtends(env, c, r.value.(history := c.history), r.value.history[|c.history|].core.code, input.issuedAtMs);
    }
  }

  lemma AttemptedPatches(env: Env, c: Candidate, a: Action)
    requires a.DoSubmit? && c.state.OwnerReviewed? && !a.receipt.Unreadable?
    ensures Patches(env, c, a, Attempted(env, c, a.destination, a.approval, a.receipt).0)
  {}

  lemma SubmitMoves(env: Env, c: Candidate, a: Action)
    requires a.DoSubmit?
    ensures var r := Submit(env, c, a.destination, a.approval, a.adapter, a.receipt, a.atMs);
      r.Ok? ==> Moves(env, c, a, r.value)
  {
    if Submit(env, c, a.destination, a.approval, a.adapter, a.receipt, a.atMs).Ok? {
      var (patched, code) := Attempted(env, c, a.destination, a.approval, a.receipt);
      AttemptedPatches(env, c, a);
      PatchMoves(env, c, a, patched, code, a.atMs);
    }
  }

  lemma ComparedPatches(env: Env, c: Candidate, a: Action, key: Hash)
    requires a.DoReadBack? && (c.state.Submitted? || c.state.RecoveryRequired?) && !a.readback.Unreadable?
    ensures Patches(env, c, a, ReadBackPatch(env, c, key, a.readback).0)
  {}

  lemma ReadBackMoves(env: Env, c: Candidate, a: Action)
    requires a.DoReadBack?
    ensures var r := ReadBack(env, c, a.destination, a.adapter, a.readback, a.atMs);
      r.Ok? ==> Moves(env, c, a, r.value)
  {
    if ReadBack(env, c, a.destination, a.adapter, a.readback, a.atMs).Ok? {
      var key := env.idempotencyKey(c.candidateId, c.contentDigest, c.approvalDigest.value, a.destination);
      var (patched, code) := ReadBackPatch(env, c, key, a.readback);
      ComparedPatches(env, c, a, key);
      PatchMoves(env, c, a, patched, code, a.atMs);
    }
  }

  lemma LinkMoves(env: Env, c: Candidate, parentIssue: int, atMs: real)
    ensures var r := Link(env, c, parentIssue, atMs);
      r.Ok? ==> Moves(env, c, DoLink(parentIssue, atMs), r.value)
  {
    var r := Link(env, c, parentIssue, atMs);
    if r.Ok? {
      AppendExtends(env, c, r.value.(history := c.history), r.value.history[|c.history|].core.code, atMs);
    }
  }

  lemma ResolveMoves(env: Env, c: Candidate, atMs: real)
    ensures var r := Resolve(env, c, atMs); r.Ok? ==> Moves(env, c, DoResolve(atMs), r.value)
  {
    var r := Resolve(env, c, atMs);
    if r.Ok? {
      AppendExtends(env, c, r.value.(history := c.history), r.value.history[|c.history|].core.code, atMs);
    }
  }

  lemma StepMoves(env: Env, c: Candidate, a: Action)
    requires Step(env, c, a).Ok?
    ensures Moves(env, c, a, Step(env, c, a).value)
  {
    match a
    case DoDraft(content, atMs) => DraftMoves(env, c, content, atMs);
    case DoSanitize(atMs) => SanitizeMoves(env, c, atMs);
    case DoClassify(classification, atMs) => ClassifyMoves(env, c, classification, atMs);
    case DoDeduplicate(_, _, _) => DeduplicateMoves(env, c, a);
    case DoResolveAmbiguous(proceed, atMs) => ResolveAmbiguousMoves(env, c, proceed, atMs);
    case DoApprove(destination, input) => ApproveMoves(env, c, destination, input);
    case DoSubmit(_, _, _, _, _) => SubmitMoves(env, c, a);
    case DoReadBack(_, _, _, _) => ReadBackMoves(env, c, a);
    case DoLink(parentIssue, atMs) => LinkMoves(env, c, parentIssue, atMs);
    case DoResolve(atMs) => ResolveMoves(env, c, atMs);
  }

  lemma ExtensionVerifies(env: Env, c: Candidate, d: Candidate)
    requires Extends(env, c, d)
    requires forall i | 0 <= i < |c.history| :: EventFits(env, c.candidateId, c.history, i)
    ensures VerifyHistory(env, d)
  {
    var n := |c.history|;
    forall i | 0 <= i <= n ensures EventFits(env, d.candidateId, d.history, i) {
      assert d.history[..i] == c.history[..i];
      if i < n {
        assert EventFits(env, c.candidateId, c.history, i);
      } else {
        TakeAll(c.history);
      }
    }
  }

  /** Consecutive events of a history are joined by edges of the life cycle. */
  ghost predicate FollowsLifeCycle(history: seq<Event>) {
    forall i | 0 < i < |history| :: Edge(history[i - 1].core.state, history[i].core.state)
  }

  lemma {:induction false} RunsVerify(env: Env, c: Candidate, actions: seq<Action>)
    requires VerifyHistory(env, c) && FollowsLifeCycle(c.history)
    ensures var d := Run(env, c, actions);
      VerifyHistory(env, d) && FollowsLifeCycle(d.history) && c.history <= d.history
  {
    if actions != [] {
      var front, a := actions[..|actions| - 1], actions[|actions| - 1];
      RunsVerify(env, c, front);
      NextVerifies(env, Run(env, c, front), a);
    }
  }

  lemma NextVerifies(env: Env, c: Candidate, a: Action)
    requires VerifyHistory(env, c) && FollowsLifeCycle(c.history)
    ensures var d := Next(env, c, a); VerifyHistory(env, d) && FollowsLifeCycle(d.history) && c.history <= d.history
  {
    if Step(env, c, a).Ok? {
      StepMoves(env, c, a);
      ExtensionVerifies(env, c, Next(env, c, a));
    }
  }

  /** Every reachable candidate passes the verifier, and its history is a walk through the life cycle
      which no later step rewrites. */
  lemma ReachableVerify(env: Env, id: string, content: Content, atMs: real, actions: seq<Action>)
    requires Observe(env, id, content, atMs).Ok?
    ensures var c := Observe(env, id, content, atMs).value; var d := Run(env, c, actions);
      && VerifyHistory(env, d) && FollowsLifeCycle(d.history) && c.history <= d.history
      && d.history[0].core.state == Observed
  {
    var c := Observe(env, id, content, atMs).value;
    ExtensionVerifies(env, c.(history := []), c) by {
      AppendExtends(env, c.(history := []), c.(history := []), OBSERVED, atMs);
    }
    RunsVerify(env, c, actions);
  }

  /** No event of one history has the hash of a different event of the other. */
  ghost predicate NoCollision(env: Env, a: seq<Event>, b: seq<Event>) {
    forall i, j | 0 <= i < |a| && 0 <= j < |b| && env.digestEvent(a[i].core) == env.digestEvent(b[j].core) ::
      a[i].core == b[j].core
  }

  lemma SameDigestSameEvent(env: Env, a: Candidate, b: Candidate, i: nat, j: nat)
    requires NoCollision(env, a.history, b.history) && VerifyHistory(env, a) && VerifyHistory(env, b)
    requires i < |a.history| && j < |b.history| && a.history[i].eventDigest == b.history[j].eventDigest
    ensures i == j && a.history[i] == b.history[j]
  {
    assert EventFits(env, a.candidateId, a.history, i) && EventFits(env, b.candidateId, b.history, j);
  }

  lemma {:induction false} SameTipSamePrefix(env: Env, a: Candidate, b: Candidate, n: nat)
    requires NoCollision(env, a.history, b.history) && VerifyHistory(env, a) && VerifyHistory(env, b)
    requires n < |a.history| && n < |b.history| && a.history[n] == b.history[n]
    ensures a.history[..n + 1] == b.history[..n + 1]
  {
    TakeNext(a.history, n);
    TakeNext(b.history, n);
    if n > 0 {
      assert EventFits(env, a.candidateId, a.history, n) && EventFits(env, b.candidateId, b.history, n);
      SameDigestSameEvent(env, a, b, n - 1, n - 1);
      SameTipSamePrefix(env, a, b, n - 1);
    }
  }

  /** The hash of the last event pins the whole history, unless the two histories exhibit a collision. */
  lemma TipPinsHistory(env: Env, a: Candidate, b: Candidate)
    requires NoCollision(env, a.history, b.history) && VerifyHistory(env, a) && VerifyHistory(env, b)
    requires a.history[|a.history| - 1].eventDigest == b.history[|b.history| - 1].eventDigest
    ensures a.history == b.history && a.candidateId == b.candidateId && a.state == b.state
    ensures a.contentDigest == b.contentDigest
  {
    SameDigestSameEvent(env, a, b, |a.history| - 1, |b.history| - 1);
    assert EventFits(env, a.candidateId, a.history, |a.history| - 1);
    assert EventFits(env, b.candidateId, b.history, |b.history| - 1);
    SameTipSamePrefix(env, a, b, |a.history| - 1);
    TakeAll(a.history);
    TakeAll(b.history);
  }

  /** Any two runs that end in the same event hash have the same history, or exhibit a collision. */
  lemma RunsPinnedByTip(env: Env, id: string, content: Content, atMs: real, actions: seq<Action>,
                        id': string, content': Content, atMs': real, actions': seq<Action>)
    requires Observe(env, id, content, atMs).Ok? && Observe(env, id', content', atMs').Ok?
    ensures var a := Run(env, Observe(env, id, content, atMs).value, actions);
      var b := Run(env, Observe(env, id', content', atMs').value, actions');
      && a.history != [] && b.history != []
      && (a.history[|a.history| - 1].eventDigest == b.history[|b.history| - 1].eventDigest
          ==> || !NoCollision(env, a.history, b.history)
              || (a.history == b.history && a.candidateId == b.candidateId && a.state == b.state
                  && a.contentDigest == b.contentDigest))
  {
    var a := Run(env, Observe(env, id, content, atMs).value, actions);
    var b := Run(env, Observe(env, id', content', atMs').value, actions');
    ReachableVerify(env, id, content, atMs, actions);
    ReachableVerify(env, id', content', atMs', actions');
    if a.history[|a.history| - 1].eventDigest == b.history[|b.history| - 1].eventDigest
       && NoCollision(env, a.history, b.history)
    {
      TipPinsHistory(env, a, b);
    }
  }

  // ---------------------------------------------------------------- the content

  lemma NextFreezes(env: Env, c: Candidate, a: Action)
    requires !Editable(c.state)
    ensures var d := Next(env, c, a); d.content == c.content && d.contentDigest == c.contentDigest && !Editable(d.state)
  {
    if Step(env, c, a).Ok? {
      StepMoves(env, c, a);
    }
  }

  /** From sanitization on nothing changes the text. */
  lemma {:induction false} ContentIsFrozen(env: Env, c: Candidate, actions: seq<Action>)
    requires !Editable(c.state)
    ensures var d := Run(env, c, actions); d.content == c.content && d.contentDigest == c.contentDigest && !Editable(d.state)
  {
    if actions != [] {
      ContentIsFrozen(env, c, actions[..|actions| - 1]);
      NextFreezes(env, Run(env, c, actions[..|actions| - 1]), actions[|actions| - 1]);
    }
  }

  lemma NextKeepsPublishable(env: Env, c: Candidate, a: Action)
    requires Publishable(env, c)
    ensures Publishable(env, Next(env, c, a))
  {
    if Step(env, c, a).Ok? {
      StepMoves(env, c, a);
    }
  }

  lemma {:induction false} RunsKeepPublishable(env: Env, c: Candidate, actions: seq<Action>)
    requires Publishable(env, c)
    ensures Publishable(env, Run(env, c, actions))
  {
    if actions != [] {
      var front := actions[..|actions| - 1];
      RunsKeepPublishable(env, c, front);
      NextKeepsPublishable(env, Run(env, c, front), actions[|actions| - 1]);
    }
  }

  /** Nothing unclean or unclassified is ever submitted, and no bytes are counted as public before that. */
  lemma {:induction false} ReachablePublishable(env: Env, id: string, content: Content, atMs: real, actions: seq<Action>)
    requires Observe(env, id, content, atMs).Ok?
    ensures Publishable(env, Run(env, Observe(env, id, content, atMs).value, actions))
  {
    RunsKeepPublishable(env, Observe(env, id, content, atMs).value, actions);
  }

  lemma {:induction false} RunsKeepLabels(env: Env, c: Candidate, actions: seq<Action>)
    requires Labelled(c)
    ensures Labelled(Run(env, c, actions))
  {
    if actions != [] {
      var before := Run(env, c, actions[..|actions| - 1]);
      RunsKeepLabels(env, c, actions[..|actions| - 1]);
      if Step(env, before, actions[|actions| - 1]).Ok? {
        StepMoves(env, before, actions[|actions| - 1]);
      }
    }
  }

  /** In every reachable candidate classification, route, approval, attempt, remote and recovery code agree
      with the state. */
  lemma {:induction false} ReachableLabelled(env: Env, id: string, content: Content, atMs: real, actions: seq<Action>)
    requires Observe(env, id, content, atMs).Ok?
    ensures Labelled(Run(env, Observe(env, id, content, atMs).value, actions))
  {
    RunsKeepLabels(env, Observe(env, id, content, atMs).value, actions);
  }

  // ---------------------------------------------------------------- submission

  /** This step calls the submit adapter. */
  predicate CallsSubmit(env: Env, c: Candidate, a: Action) {
    a.DoSubmit? && SubmitDenial(env, c, a.destination, a.approval, a.adapter, a.atMs).None?
  }

  /** This step calls the submit adapter and then throws. */
  predicate Spoils(env: Env, c: Candidate, a: Action) {
    CallsSubmit(env, c, a) && Step(env, c, a).Err?
  }

  /** A call is spoiled exactly by an unreadable answer or by a clock that shows no whole millisecond,
      which is looked at only when the event is appended. */
  lemma SpoiledExactly(env: Env, c: Candidate, a: Action)
    requires CallsSubmit(env, c, a)
    ensures Spoils(env, c, a) <==> a.receipt.Unreadable? || !IsSafeInteger(a.atMs) || a.atMs < 0.0
  {}

  function SubmitCalls(env: Env, c: Candidate, actions: seq<Action>): nat {
    if actions == [] then 0
    else
      var front, a := actions[..|actions| - 1], actions[|actions| - 1];
      SubmitCalls(env, c, front) + if CallsSubmit(env, Run(env, c, front), a) then 1 else 0
  }

  function SpoiledCalls(env: Env, c: Candidate, actions: seq<Action>): nat {
    if actions == [] then 0
    else
      var front, a := actions[..|actions| - 1], actions[|actions| - 1];
      SpoiledCalls(env, c, front) + if Spoils(env, Run(env, c, front), a) then 1 else 0
  }

  lemma SubmittedWasCalled(env: Env, c: Candidate, a: Action)
    requires a.DoSubmit? && Step(env, c, a).Ok?
    ensures CallsSubmit(env, c, a) && c.state.OwnerReviewed?
  {}

  lemma StepAllowed(env: Env, c: Candidate, a: Action)
    requires Step(env, c, a).Ok?
    ensures Allowed(a, c.state, Next(env, c, a).state)
  {
    StepMoves(env, c, a);
  }

  lemma SubmitOnce(env: Env, c: Candidate, a: Action)
    ensures AfterSubmit(c.state) ==> AfterSubmit(Next(env, c, a).state) && !CallsSubmit(env, c, a)
    ensures !AfterSubmit(c.state) ==>
      (AfterSubmit(Next(env, c, a).state) <==> CallsSubmit(env, c, a) && !Spoils(env, c, a))
  {
    if Step(env, c, a).Ok? {
      StepAllowed(env, c, a);
      if a.DoSubmit? {
        SubmittedWasCalled(env, c, a);
      }
    }
  }

  /** Every call of the submit adapter but the spoiled ones moves the candidate on for good. */
  lemma {:induction false} SubmitCallsExactly(env: Env, c: Candidate, actions: seq<Action>)
    requires !AfterSubmit(c.state)
    ensures SubmitCalls(env, c, actions)
      == SpoiledCalls(env, c, actions) + if AfterSubmit(Run(env, c, actions).state) then 1 else 0
  {
    if actions != [] {
      var front, a := actions[..|actions| - 1], actions[|actions| - 1];
      SubmitCallsExactly(env, c, front);
      SubmitOnce(env, Run(env, c, front), a);
    }
  }

  /** The submit calls of this action sequence are made at whole milliseconds and are answered. */
  predicate WellTimed(actions: seq<Action>) {
    forall a | a in actions && a.DoSubmit? :: !a.receipt.Unreadable? && IsSafeInteger(a.atMs) && a.atMs >= 0.0
  }

  lemma {:induction false} WellTimedSpoilsNothing(env: Env, c: Candidate, actions: seq<Action>)
    requires WellTimed(actions)
    ensures SpoiledCalls(env, c, actions) == 0
  {
    if actions != [] {
      var front, a := actions[..|actions| - 1], actions[|actions| - 1];
      WellTimedSpoilsNothing(env, c, front);
      if CallsSubmit(env, Run(env, c, front), a) {
        SpoiledExactly(env, Run(env, c, front), a);
      }
    }
  }

  /** One linear run calls the submit adapter at most once. */
  lemma AtMostOneSubmit(env: Env, c: Candidate, actions: seq<Action>)
    requires !AfterSubmit(c.state) && WellTimed(actions)
    ensures SubmitCalls(env, c, actions) <= 1
  {
    SubmitCallsExactly(env, c, actions);
    WellTimedSpoilsNothing(env, c, actions);
  }

  /** Without that, repeating an allowed submission calls the adapter once more every time. */
  lemma {:induction false} SpoiledSubmitRepeats(env: Env, c: Candidate, a: Action, n: nat)
    requires Spoils(env, c, a)
    ensures var again := seq(n, _ => a); Run(env, c, again) == c && SubmitCalls(env, c, again) == n
  {
    if n > 0 {
      SpoiledSubmitRepeats(env, c, a, n - 1);
      var again := seq(n, _ => a);
      assert again[..n - 1] == seq(n - 1, _ => a);
    }
  }

  lemma RunOneMore(env: Env, c: Candidate, actions: seq<Action>, a: Action)
    ensures Run(env, c, actions + [a]) == Next(env, Run(env, c, actions), a)
  {
    TakeFront(actions, a);
  }

  /** The names a linear run up to the approval needs. */
  datatype RunNames = RunNames(candidateId: string, destination: string, adapterId: string, approvalId: string,
                               nonce: string)

  /** Every name has its shape, and the content is clean and short enough before and after normalization. */
  predicate Submittable(env: Env, names: RunNames, content: Content) {
    && env.isId(names.candidateId) && env.isDestination(names.destination) && env.isId(names.adapterId)
    && env.isId(names.approvalId) && env.isNonce(names.nonce)
    && env.hits(content) == {} && ContentFits(content) && ContentFits(env.normalForm(content))
  }

  function Start(env: Env, names: RunNames, content: Content): Candidate
    requires Submittable(env, names, content)
  {
    Observe(env, names.candidateId, content, 0.0).value
  }

  lemma ReviewReachable(env: Env, names: RunNames, content: Content) returns (actions: seq<Action>)
    requires Submittable(env, names, content)
    ensures var c := Run(env, Start(env, names, content), actions);
      c.state.Deduplicated? && c.duplicateSearchDigest.Some?
  {
    var c0 := Start(env, names, content);
    var a1, a2, a3 := DoDraft(content, 0.0), DoSanitize(0.0), DoClassify(PUBLIC, 0.0);
    var found := Search(0.0, names.destination, env.digestContent(env.normalForm(content)), []);
    var a4 := DoDeduplicate(names.destination, Some(Adapter(names.adapterId, true)), Answered(found));
    RunOneMore(env, c0, [], a1);
    RunOneMore(env, c0, [a1], a2);
    RunOneMore(env, c0, [a1] + [a2], a3);
    RunOneMore(env, c0, [a1] + [a2] + [a3], a4);
    actions := [a1] + [a2] + [a3] + [a4];
  }

  /** Any clean content can be taken as far as an approval that is valid for a while. */
  lemma ApprovalReachable(env: Env, names: RunNames, content: Content) returns (actions: seq<Action>, approval: Approval)
    requires Submittable(env, names, content)
    ensures var c := Run(env, Start(env, names, content), actions);
      c.state.OwnerReviewed? && c.remote.None?
      && forall atMs: real | 0.0 <= atMs <= 1.0 :: ValidApproval(env, c, approval, names.destination, atMs)
  {
    var input := ApprovalInput(names.approvalId, names.nonce, 0.0, 1.0);
    var c0, approve := Start(env, names, content), DoApprove(names.destination, input);
    var before := ReviewReachable(env, names, content);
    RunOneMore(env, c0, before, approve);
    actions := before + [approve];
    approval := ApprovalFor(env, Run(env, c0, before), names.destination, input);
    NoRemoteBeforeSubmit(env, c0, actions);
  }

  lemma NextKeepsRemote(env: Env, c: Candidate, a: Action)
    requires !AfterSubmit(Next(env, c, a).state)
    ensures Next(env, c, a).remote == c.remote
  {
    if Step(env, c, a).Ok? {
      StepAllowed(env, c, a);
    }
  }

  /** Before the submit adapter answered no remote is known. */
  lemma {:induction false} NoRemoteBeforeSubmit(env: Env, c: Candidate, actions: seq<Action>)
    requires c.remote.None? && !AfterSubmit(Run(env, c, actions).state)
    ensures Run(env, c, actions).remote.None?
  {
    if actions != [] {
      var before, a := Run(env, c, actions[..|actions| - 1]), actions[|actions| - 1];
      SubmitOnce(env, before, a);
      NoRemoteBeforeSubmit(env, c, actions[..|actions| - 1]);
      NextKeepsRemote(env, before, a);
    }
  }

  /** For every clean content there are a reachable candidate and a submission of it, half a millisecond
      after the approval, that is spoiled. */
  lemma SpoilReachable(env: Env, names: RunNames, content: Content) returns (actions: seq<Action>, a: Action)
    requires Submittable(env, names, content)
    ensures Spoils(env, Run(env, Start(env, names, content), actions), a)
  {
    var approval;
    actions, approval := ApprovalReachable(env, names, content);
    a := DoSubmit(names.destination, approval, Some(Adapter(names.adapterId, true)), Rejected, 0.5);
    SpoiledExactly(env, Run(env, Start(env, names, content), actions), a);
  }

  /** And one whose submission was rejected, which leaves it in recovery with no remote. */
  lemma NoRemoteReachable(env: Env, names: RunNames, content: Content) returns (actions: seq<Action>)
    requires Submittable(env, names, content)
    ensures var c := Run(env, Start(env, names, content), actions); c.state.RecoveryRequired? && c.remote.None?
  {
    var before, approval := ApprovalReachable(env, names, content);
    var submit := DoSubmit(names.destination, approval, Some(Adapter(names.adapterId, true)), Rejected, 1.0);
    RunOneMore(env, Start(env, names, content), before, submit);
    actions := before + [submit];
  }

  // ---------------------------------------------------------------- readback

  /** No two texts have the same hash. */
  ghost predicate ContentHashInjective(env: Env) {
    forall x, y :: env.digestContent(x) == env.digestContent(y) ==> x == y
  }

  /** The step confirms c by reading back this very content. */
  predicate ConfirmsBy(env: Env, c: Candidate, a: Action, content: Content) {
    && (c.state.Submitted? || c.state.RecoveryRequired?)
    && Next(env, c, a).state.ReadbackConfirmed?
    && a.DoReadBack? && a.readback.Answered?
    && a.readback.value.core.content == Some(content)
    && Some(a.readback.value.core.remote) == c.remote
  }

  lemma ReadBackConfirms(env: Env, c: Candidate, destination: string, adapter: Option<Adapter>,
                         readback: Answer<Readback>, atMs: real)
    requires ContentHashInjective(env) && c.contentDigest == env.digestContent(c.content)
    ensures var r := ReadBack(env, c, destination, adapter, readback, atMs);
      r.Ok? && r.value.state.ReadbackConfirmed? ==>
        && readback.Answered? && readback.value.core.content == Some(c.content)
        && Some(readback.value.core.remote) == c.remote
  {}

  lemma ConfirmingStep(env: Env, c: Candidate, a: Action)
    requires ContentHashInjective(env) && c.contentDigest == env.digestContent(c.content)
    requires !Confirmed(c.state) && Confirmed(Next(env, c, a).state)
    ensures ConfirmsBy(env, c, a, c.content)
  {
    StepMoves(env, c, a);
    ReadBackConfirms(env, c, a.destination, a.adapter, a.readback, a.atMs);
  }

  lemma {:induction false} ConfirmedAt(env: Env, c: Candidate, actions: seq<Action>) returns (j: nat)
    requires ContentHashInjective(env) && Publishable(env, c) && !Confirmed(c.state)
    requires Confirmed(Run(env, c, actions).state)
    ensures j < |actions| && ConfirmsBy(env, Run(env, c, actions[..j]), actions[j], Run(env, c, actions).content)
  {
    var n := |actions| - 1;
    var before := Run(env, c, actions[..n]);
    RunsKeepPublishable(env, c, actions[..n]);
    if Editable(before.state) {
      NextNotYetConfirmed(env, before, actions[n]);
    }
    NextFreezes(env, before, actions[n]);
    if Confirmed(before.state) {
      j := ConfirmedAt(env, c, actions[..n]);
      TakeTake(actions, j, n);
    } else {
      j := n;
      ConfirmingStep(env, before, actions[n]);
    }
  }

  lemma NextNotYetConfirmed(env: Env, c: Candidate, a: Action)
    requires Editable(c.state)
    ensures !Confirmed(Next(env, c, a).state)
  {
    if Step(env, c, a).Ok? {
      StepAllowed(env, c, a);
    }
  }

  /** The step approves c, and so the content it shows. */
  predicate Approves(env: Env, c: Candidate, a: Action) {
    c.state.Deduplicated? && a.DoApprove? && Next(env, c, a).state.OwnerReviewed?
  }

  lemma ReviewingStep(env: Env, c: Candidate, a: Action)
    requires Reviewed(Next(env, c, a).state)
    ensures Reviewed(c.state) || Approves(env, c, a)
    ensures Next(env, c, a).content == c.content
  {
    if Step(env, c, a).Ok? {
      StepAllowed(env, c, a);
      NextFreezes(env, c, a);
    }
  }

  lemma {:induction false} ApprovedAt(env: Env, c: Candidate, actions: seq<Action>) returns (i: nat)
    requires !Reviewed(c.state) && Reviewed(Run(env, c, actions).state)
    ensures i < |actions| && Approves(env, Run(env, c, actions[..i]), actions[i])
    ensures Run(env, c, actions[..i]).content == Run(env, c, actions).content
  {
    var n := |actions| - 1;
    var before := Run(env, c, actions[..n]);
    ReviewingStep(env, before, actions[n]);
    if Reviewed(before.state) {
      i := ApprovedAt(env, c, actions[..n]);
      TakeTake(actions, i, n);
    } else {
      i := n;
    }
  }

  /** A confirmed issue carries the content the owner approved: the run approved it at some step, and at
      a later one read exactly that content back from the remote the receipt named. */
  lemma ConfirmedMeansApproved(env: Env, id: string, content: Content, atMs: real, actions: seq<Action>)
    returns (i: nat, j: nat)
    requires ContentHashInjective(env) && Observe(env, id, content, atMs).Ok?
    requires Confirmed(Run(env, Observe(env, id, content, atMs).value, actions).state)
    ensures var c := Observe(env, id, content, atMs).value;
      && i < j < |actions|
      && Approves(env, Run(env, c, actions[..i]), actions[i])
      && ConfirmsBy(env, Run(env, c, actions[..j]), actions[j], Run(env, c, actions[..i]).content)
  {
    var c := Observe(env, id, content, atMs).value;
    j := ConfirmedAt(env, c, actions);
    i := ApprovedAt(env, c, actions[..j]);
    TakeTake(actions, i, j);
    RunsKeepPublishable(env, c, actions[..j]);
    ConfirmingStep(env, Run(env, c, actions[..j]), actions[j]);
  }

  /** A submission that was rejected or whose receipt was denied names no remote, and is never confirmed. */
  lemma {:induction false} NoRemoteNeverConfirmed(env: Env, c: Candidate, actions: seq<Action>)
    requires c.state.RecoveryRequired? && c.remote.None?
    ensures Run(env, c, actions).state.RecoveryRequired? && Run(env, c, actions).remote.None?
  {
    if actions != [] {
      NoRemoteNeverConfirmed(env, c, actions[..|actions| - 1]);
    }
  }

  /** The readback that finds the submitted content where the receipt said it would be. */
  function Finding(env: Env, c: Candidate, destination: string): Action
    requires c.attemptId.Some? && c.approvalDigest.Some? && c.remote.Some?
  {
    var key := env.idempotencyKey(c.candidateId, c.contentDigest, c.approvalDigest.value, destination);
    var core := ReadbackCore(true, FOUND, c.attemptId.value, key, c.remote.value, Some(c.content));
    DoReadBack(destination, Some(Adapter("", false)), Answered(Readback(core, env.digestReadback(core))), 0.0)
  }

  lemma FindingConfirms(env: Env, c: Candidate, destination: string)
    requires c.state.RecoveryRequired? && Labelled(c) && Publishable(env, c) && env.isDestination(destination)
    requires c.remote.Some?
    ensures Next(env, c, Finding(env, c, destination)).state.ReadbackConfirmed?
  {}

  /** A reachable candidate in recovery can still be confirmed exactly when it knows a remote. */
  lemma RecoverableExactly(env: Env, c: Candidate, destination: string)
    requires c.state.RecoveryRequired? && Labelled(c) && Publishable(env, c) && env.isDestination(destination)
    ensures c.remote.Some? <==> exists actions :: Confirmed(Run(env, c, actions).state)
  {
    if c.remote.Some? {
      var a := Finding(env, c, destination);
      FindingConfirms(env, c, destination);
      RunOneMore(env, c, [], a);
      assert Confirmed(Run(env, c, [] + [a]).state);
    } else {
      forall actions ensures !Confirmed(Run(env, c, actions).state) {
        NoRemoteNeverConfirmed(env, c, actions);
      }
    }
  }
}
