/** The ERP order cell: one capability served by two interchangeable provider profiles. Every order is
    created, read back and deleted again, and every change of profile is exact and reversible. */
module ErpOrderCell {
  import opened Options
  import opened Sequences

  datatype Kind = SYNTHETIC_LEDGER_A | SYNTHETIC_COMMERCE_B

  datatype Provider = Provider(profileId: string, bindingId: string, effectiveRights: set<string>)

  datatype ProfileCore = ProfileCore(actionDigest: string, semanticId: string, kind: Kind, provider: Provider)

  datatype Profile = Profile(core: ProfileCore, profileDigest: string)

  datatype Request = Request(requestId: string, sku: string, quantity: int)

  type Orders = map<string, string>

  /** The digests in which a receipt records one execution. */
  datatype ReceiptCore = ReceiptCore(
    profileId: string, profileDigest: string, bindingId: string, requestIdDigest: string, requestDigest: string,
    providerRequestDigest: string, orderId: string, readbackDigest: string, beforeDigest: string,
    mutationDigest: string, finalDigest: string)

  datatype Receipt = Receipt(core: ReceiptCore, receiptDigest: string)

  datatype SwitchOutcome = EXACT_PROFILE_SWITCHED | EXACT_PROFILE_ROLLED_BACK

  datatype RightsDiff = RightsDiff(removed: set<string>, added: set<string>, retained: set<string>)

  datatype SwitchCore = SwitchCore(outcome: SwitchOutcome, from: string, to: string, rightsDiff: RightsDiff)

  datatype SwitchReceipt = SwitchReceipt(core: SwitchCore, switchDigest: string)

  datatype Denial =
    | ERP_PROFILE_SET_DENIED
    | ERP_PROFILE_SCHEMA_DENIED
    | ERP_PROFILE_DIGEST_DENIED
    | ERP_PROFILE_CATALOGUE_BINDING_DENIED
    | ERP_PROFILE_INCOMPATIBLE_SEMANTICS_DENIED
    | ERP_PROFILE_EXACT_SWITCH_DENIED
    | ERP_PROFILE_RESIDUE_DENIED
    | ERP_PROFILE_ROLLBACK_DENIED
    | ERP_ORDER_REQUEST_DENIED
    | ERP_ORDER_REPLAY_DENIED
    | ERP_ORDER_READBACK_DENIED
    | ERP_ORDER_ROLLBACK_DENIED

  /** The catalogue action, the two providers, hashes, and how a profile words a provider request. */
  datatype Env = Env(
    actionDigest: string,
    semanticId: string,
    provider: Kind -> Provider,
    digestProfile: ProfileCore -> string,
    validRequest: Request -> bool,
    encode: (Profile, Request) -> string,
    orderId: (string, Request) -> string,
    digestText: string -> string,
    digestRequest: Request -> string,
    digestOrders: Orders -> string,
    digestReadback: (string, string) -> string,
    digestReceipt: ReceiptCore -> string,
    digestSwitch: SwitchCore -> string)

  /** What construction fixes: the two profiles by digest, and the one last known good. */
  datatype Setup = Setup(env: Env, profiles: map<string, Profile>, lkg: string)

  /** What the calls change. */
  datatype State = State(active: string, providerOrders: map<string, Orders>, replay: set<string>,
                         receipts: map<string, Receipt>, executions: nat, replayDenials: nat,
                         profileSwitches: nat, profileRollbacks: nat)

  function ProfileMaterial(env: Env, kind: Kind): ProfileCore {
    ProfileCore(env.actionDigest, env.semanticId, kind, env.provider(kind))
  }

  /** Why a profile is refused, if it is. */
  function ProfileDenial(env: Env, p: Profile): Option<Denial> {
    if env.digestProfile(p.core) != p.profileDigest then Some(ERP_PROFILE_DIGEST_DENIED)
    else if p.core.actionDigest != env.actionDigest then Some(ERP_PROFILE_CATALOGUE_BINDING_DENIED)
    else if p.core.semanticId != env.semanticId then Some(ERP_PROFILE_INCOMPATIBLE_SEMANTICS_DENIED)
    else if p.core != ProfileMaterial(env, p.core.kind) then Some(ERP_PROFILE_SCHEMA_DENIED)
    else None
  }

  /** The one profile of a kind that is not refused. */
  function ConformantProfile(env: Env, kind: Kind): Profile {
    var core := ProfileMaterial(env, kind);
    Profile(core, env.digestProfile(core))
  }

  lemma ConformantIsUnique(env: Env, p: Profile)
    ensures ProfileDenial(env, p).None? <==> p == ConformantProfile(env, p.core.kind)
  {}

  /** Two conformant profiles filed under their digests, one of them last known good. */
  ghost predicate Accepted(setup: Setup) {
    && |setup.profiles| == 2
    && setup.lkg in setup.profiles
    && forall d | d in setup.profiles :: Conforms(setup.env, setup.profiles[d], d)
  }

  predicate Conforms(env: Env, p: Profile, d: string) {
    p.profileDigest == d && ProfileDenial(env, p).None?
  }

  function Bindings(profiles: map<string, Profile>): set<string> {
    set d | d in profiles :: profiles[d].core.provider.bindingId
  }

  function EmptyOrders(profiles: map<string, Profile>): map<string, Orders> {
    map b | b in Bindings(profiles) :: map[]
  }

  /** Every list of orders cleared. */
  function Emptied(providerOrders: map<string, Orders>): map<string, Orders> {
    map b | b in providerOrders :: map[]
  }

  lemma EmptiedAgain(profiles: map<string, Profile>)
    ensures Emptied(EmptyOrders(profiles)) == EmptyOrders(profiles)
  {}

  lemma NothingAtProvider(profiles: map<string, Profile>, d: string)
    requires d in profiles
    ensures var b := profiles[d].core.provider.bindingId; b in EmptyOrders(profiles) && EmptyOrders(profiles)[b] == map[]
  {
    assert profiles[d].core.provider.bindingId in Bindings(profiles);
  }

  predicate Residue(orders: map<string, Orders>) {
    exists b | b in orders :: |orders[b]| != 0
  }

  function Initial(setup: Setup): State {
    State(setup.lkg, EmptyOrders(setup.profiles), {}, map[], 0, 0, 0, 0)
  }

  function DiffRights(from: Profile, to: Profile): RightsDiff {
    var left, right := from.core.provider.effectiveRights, to.core.provider.effectiveRights;
    RightsDiff(left - right, right - left, left * right)
  }

  /** The receipt of an execution, as a function of profile and request alone. */
  function ReceiptFor(env: Env, p: Profile, r: Request): Receipt {
    var order, id := env.encode(p, r), env.orderId(p.profileDigest, r);
    var core := ReceiptCore(p.core.provider.profileId, p.profileDigest, p.core.provider.bindingId,
                            env.digestText(r.requestId), env.digestRequest(r), env.digestText(order), id,
                            env.digestReadback(order, id), env.digestOrders(map[]), env.digestOrders(map[id := order]),
                            env.digestOrders(map[]));
    Receipt(core, env.digestReceipt(core))
  }

  function SwitchReceiptFor(env: Env, outcome: SwitchOutcome, from: Profile, to: Profile): SwitchReceipt {
    var core := SwitchCore(outcome, from.profileDigest, to.profileDigest, DiffRights(from, to));
    SwitchReceipt(core, env.digestSwitch(core))
  }

  /** A switch receipt this cell could have given for its last change to the active profile. */
  predicate ReceiptMatches(setup: Setup, active: string, receipt: SwitchReceipt) {
    var SwitchCore(outcome, from, to, diff) := receipt.core;
    && outcome == EXACT_PROFILE_SWITCHED
    && setup.env.digestSwitch(receipt.core) == receipt.switchDigest
    && active == to && from in setup.profiles && to in setup.profiles
    && diff == DiffRights(setup.profiles[from], setup.profiles[to])
  }

  /** What the calls do, said without the provider. */
  function Executed(setup: Setup, s: State, request: Request): (State, Result<Receipt, Denial>)
    requires s.active in setup.profiles
  {
    if !setup.env.validRequest(request) then (s, Err(ERP_ORDER_REQUEST_DENIED))
    else if request.requestId in s.replay then
      (s.(replayDenials := s.replayDenials + 1), Err(ERP_ORDER_REPLAY_DENIED))
    else
      var receipt := ReceiptFor(setup.env, setup.profiles[s.active], request);
      (s.(replay := s.replay + {request.requestId}, receipts := s.receipts[request.requestId := receipt],
          executions := s.executions + 1),
       Ok(receipt))
  }

  function Switched(setup: Setup, s: State, from: string, to: string, outcome: SwitchOutcome)
    : (State, Result<SwitchReceipt, Denial>)
  {
    if s.active != from || from == to || from !in setup.profiles || to !in setup.profiles then
      (s, Err(ERP_PROFILE_EXACT_SWITCH_DENIED))
    else
      var (switches, rollbacks) := if outcome == EXACT_PROFILE_SWITCHED then (1, 0) else (0, 1);
      (s.(active := to, profileSwitches := s.profileSwitches + switches, profileRollbacks := s.profileRollbacks + rollbacks),
       Ok(SwitchReceiptFor(setup.env, outcome, setup.profiles[from], setup.profiles[to])))
  }

  function RolledBack(setup: Setup, s: State, receipt: SwitchReceipt): (State, Result<SwitchReceipt, Denial>) {
    if !ReceiptMatches(setup, s.active, receipt) then (s, Err(ERP_PROFILE_ROLLBACK_DENIED))
    else Switched(setup, s, receipt.core.to, receipt.core.from, EXACT_PROFILE_ROLLED_BACK)
  }

  predicate Even(n: nat) {
    n == 0 || !Even(n - 1)
  }

  /** The receipt is that of some request with this id under one of the profiles. */
  ghost predicate IssuedFor(setup: Setup, id: string, receipt: Receipt) {
    exists d: string, r: Request ::
      d in setup.profiles && r.requestId == id && receipt == ReceiptFor(setup.env, setup.profiles[d], r)
  }

  ghost predicate AllIssued(setup: Setup, receipts: map<string, Receipt>) {
    forall id | id in receipts :: IssuedFor(setup, id, receipts[id])
  }

  /** What holds between calls. */
  ghost predicate Sound(setup: Setup, s: State) {
    && Accepted(setup)
    && s.active in setup.profiles
    && s.providerOrders == EmptyOrders(setup.profiles)
    && s.receipts.Keys == s.replay
    && s.executions == |s.receipts|
    && (s.active == setup.lkg <==> Even(s.profileSwitches + s.profileRollbacks))
  }

  lemma OneMoreKey<K, V>(m: map<K, V>, keys: set<K>, k: K, v: V)
    requires m.Keys == keys && k !in keys
    ensures m[k := v].Keys == keys + {k} && |m[k := v]| == |m| + 1
  {}

  lemma ExecutedKeepsSound(setup: Setup, s: State, request: Request)
    requires Sound(setup, s)
    ensures Sound(setup, Executed(setup, s, request).0)
  {
    if request.requestId !in s.replay {
      OneMoreKey(s.receipts, s.replay, request.requestId, ReceiptFor(setup.env, setup.profiles[s.active], request));
    }
  }

  /** With two profiles, whatever is neither from is to. */
  lemma TwoProfilesOnly(profiles: map<string, Profile>, lkg: string, from: string, to: string)
    requires |profiles| == 2 && lkg in profiles && from in profiles && to in profiles && from != to
    ensures lkg == from || lkg == to
  {
    if lkg != from && lkg != to {
      var three := {lkg, from, to};
      assert |profiles.Keys| == |three| + |profiles.Keys - three| by {
        assert profiles.Keys == three + (profiles.Keys - three);
      }
    }
  }

  /** Whatever an accepted cell was built from, it holds exactly the two profiles that the catalogue and
      the providers determine, one of each kind. */
  lemma AcceptedHasBothKinds(setup: Setup)
    requires Accepted(setup)
    ensures setup.profiles.Values
         == {ConformantProfile(setup.env, SYNTHETIC_LEDGER_A), ConformantProfile(setup.env, SYNTHETIC_COMMERCE_B)}
  {
    var first := setup.lkg;
    var second := AnotherProfile(setup.profiles, first);
    var p, q := setup.profiles[first], setup.profiles[second];
    assert Conforms(setup.env, p, first) && Conforms(setup.env, q, second);
    ConformantIsUnique(setup.env, p);
    ConformantIsUnique(setup.env, q);
    forall d | d in setup.profiles ensures d == first || d == second {
      if d != first && d != second {
        TwoProfilesOnly(setup.profiles, d, first, second);
      }
    }
    assert setup.profiles.Values == {p, q};
    assert p.core.kind != q.core.kind;
  }

  lemma AnotherProfile(profiles: map<string, Profile>, d: string) returns (other: string)
    requires |profiles| == 2 && d in profiles
    ensures other in profiles && other != d
  {
    assert |profiles.Keys - {d}| == 1;
    other :| other in profiles.Keys - {d};
  }

  lemma SwitchedKeepsSound(setup: Setup, s: State, from: string, to: string, outcome: SwitchOutcome)
    requires Sound(setup, s)
    ensures Sound(setup, Switched(setup, s, from, to, outcome).0)
  {
    if s.active == from && from != to && to in setup.profiles {
      TwoProfilesOnly(setup.profiles, setup.lkg, from, to);
    }
  }

  lemma InitialIsSound(setup: Setup)
    requires Accepted(setup)
    ensures Sound(setup, Initial(setup))
  {}

  datatype Call =
    | CallExecute(request: Request)
    | CallSwitchProfile(from: string, to: string)
    | CallRollbackProfile(receipt: SwitchReceipt)
    | CallReset

  function Step(setup: Setup, s: State, call: Call): State
    requires s.active in setup.profiles
  {
    match call
    case CallExecute(request) => Executed(setup, s, request).0
    case CallSwitchProfile(from, to) => Switched(setup, s, from, to, EXACT_PROFILE_SWITCHED).0
    case CallRollbackProfile(receipt) => RolledBack(setup, s, receipt).0
    case CallReset => Initial(setup)
  }

  /** The state after a sequence of calls on a fresh cell. */
  function Run(setup: Setup, calls: seq<Call>): (s: State)
    requires setup.lkg in setup.profiles
    ensures s.active in setup.profiles
  {
    if calls == [] then Initial(setup) else Step(setup, Run(setup, calls[..|calls| - 1]), calls[|calls| - 1])
  }

  lemma StepKeepsSound(setup: Setup, s: State, call: Call)
    requires Sound(setup, s)
    ensures Sound(setup, Step(setup, s, call))
  {
    match call
    case CallExecute(request) => ExecutedKeepsSound(setup, s, request);
    case CallSwitchProfile(from, to) => SwitchedKeepsSound(setup, s, from, to, EXACT_PROFILE_SWITCHED);
    case CallRollbackProfile(receipt) =>
      if ReceiptMatches(setup, s.active, receipt) {
        SwitchedKeepsSound(setup, s, receipt.core.to, receipt.core.from, EXACT_PROFILE_ROLLED_BACK);
      }
    case CallReset => InitialIsSound(setup);
  }

  lemma {:induction false} RunsAreSound(setup: Setup, calls: seq<Call>)
    requires Accepted(setup)
    ensures Sound(setup, Run(setup, calls))
  {
    if calls == [] {
      InitialIsSound(setup);
    } else {
      RunsAreSound(setup, calls[..|calls| - 1]);
      StepKeepsSound(setup, Run(setup, calls[..|calls| - 1]), calls[|calls| - 1]);
    }
  }

  lemma IssueKept(setup: Setup, receipts: map<string, Receipt>, id: string, receipt: Receipt)
    requires AllIssued(setup, receipts) && IssuedFor(setup, id, receipt)
    ensures AllIssued(setup, receipts[id := receipt])
  {
    var after := receipts[id := receipt];
    forall k | k in after ensures IssuedFor(setup, k, after[k]) {
      if k != id {
        assert k in receipts;
      }
    }
  }

  lemma ReceiptIsIssued(setup: Setup, d: string, request: Request)
    requires d in setup.profiles
    ensures IssuedFor(setup, request.requestId, ReceiptFor(setup.env, setup.profiles[d], request))
  {}

  lemma StepIssues(setup: Setup, s: State, call: Call)
    requires setup.lkg in setup.profiles && s.active in setup.profiles && AllIssued(setup, s.receipts)
    ensures AllIssued(setup, Step(setup, s, call).receipts)
  {
    match call
    case CallExecute(request) => ExecutedIssues(setup, s, request);
    case CallSwitchProfile(from, to) => SwitchedKeepsReceipts(setup, s, from, to, EXACT_PROFILE_SWITCHED);
    case CallRollbackProfile(receipt) =>
      SwitchedKeepsReceipts(setup, s, receipt.core.to, receipt.core.from, EXACT_PROFILE_ROLLED_BACK);
    case CallReset =>
  }

  lemma SwitchedKeepsReceipts(setup: Setup, s: State, from: string, to: string, outcome: SwitchOutcome)
    ensures Switched(setup, s, from, to, outcome).0.receipts == s.receipts
  {}

  /** Every receipt kept after a run is the one some request with its id earns under one of the profiles. */
  lemma {:induction false} ReceiptsAreIssued(setup: Setup, calls: seq<Call>)
    requires Accepted(setup)
    ensures AllIssued(setup, Run(setup, calls).receipts)
  {
    if calls != [] {
      ReceiptsAreIssued(setup, calls[..|calls| - 1]);
      StepIssues(setup, Run(setup, calls[..|calls| - 1]), calls[|calls| - 1]);
    }
  }

  lemma ExecutedIssues(setup: Setup, s: State, request: Request)
    requires s.active in setup.profiles && AllIssued(setup, s.receipts)
    ensures AllIssued(setup, Executed(setup, s, request).0.receipts)
  {
    ReceiptIsIssued(setup, s.active, request);
    IssueKept(setup, s.receipts, request.requestId, ReceiptFor(setup.env, setup.profiles[s.active], request));
  }

  lemma RunOneMore(setup: Setup, calls: seq<Call>, call: Call)
    requires setup.lkg in setup.profiles
    ensures Run(setup, calls + [call]) == Step(setup, Run(setup, calls), call)
  {
    TakeFront(calls, call);
  }

  lemma RunPush(setup: Setup, calls: seq<Call>, front: seq<Call>, last: Call)
    requires setup.lkg in setup.profiles
    ensures Run(setup, calls + (front + [last])) == Step(setup, Run(setup, calls + front), last)
  {
    AppendAssociates(calls, front, [last]);
    RunOneMore(setup, calls + front, last);
  }

  /** How the calls after a reset run does not depend on the calls before it. */
  lemma {:induction false} ResetForgets(setup: Setup, before: seq<Call>, after: seq<Call>)
    requires Accepted(setup)
    ensures Run(setup, before + [CallReset] + after) == Run(setup, after)
  {
    if after == [] {
      RunOneMore(setup, before, CallReset);
      assert before + [CallReset] + [] == before + [CallReset];
    } else {
      var front, last := after[..|after| - 1], after[|after| - 1];
      ResetForgets(setup, before, front);
      SplitLast(after);
      RunPush(setup, before + [CallReset], front, last);
      RunOneMore(setup, front, last);
    }
  }

  /** The receipt of an accepted switch rolls it back, and only the counters tell. */
  lemma {:induction false} SwitchThenRollback(setup: Setup, s: State, to: string)
    requires Sound(setup, s) && to in setup.profiles && to != s.active
    ensures var (s1, r1) := Switched(setup, s, s.active, to, EXACT_PROFILE_SWITCHED);
      && r1.Ok?
      && var (s2, r2) := RolledBack(setup, s1, r1.value);
      && s2 == s.(profileSwitches := s.profileSwitches + 1, profileRollbacks := s.profileRollbacks + 1)
      && r2.Ok? && r2.value.core.rightsDiff.added == r1.value.core.rightsDiff.removed
      && r2.value.core.rightsDiff.removed == r1.value.core.rightsDiff.added
  {
    var p, q := setup.profiles[s.active], setup.profiles[to];
    assert Conforms(setup.env, p, s.active) && Conforms(setup.env, q, to);
  }

  /** After a reset every valid request gets the last-known-good profile's receipt, which is the one it
      got before if that profile carried it out. */
  lemma {:induction false} SameReceiptAfterReset(setup: Setup, calls: seq<Call>, request: Request)
    requires Accepted(setup) && setup.env.validRequest(request)
    ensures var again := Executed(setup, Run(setup, calls + [CallReset]), request).1;
      && again == Ok(ReceiptFor(setup.env, setup.profiles[setup.lkg], request))
      && forall earlier: seq<Call> ::
           var s := Run(setup, earlier);
           s.active == setup.lkg && request.requestId !in s.replay ==> Executed(setup, s, request).1 == again
  {
    ResetForgets(setup, calls, []);
    assert calls + [CallReset] + [] == calls + [CallReset];
  }

  class ErpOrderCapabilityCell {
    const setup: Setup
    var active: string
    var providerOrders: map<string, Orders>
    var replay: set<string>
    var receipts: map<string, Receipt>
    var executions: nat
    var replayDenials: nat
    var profileSwitches: nat
    var profileRollbacks: nat

    ghost function Current(): State
      reads this
    {
      State(active, providerOrders, replay, receipts, executions, replayDenials, profileSwitches, profileRollbacks)
    }

    constructor (setup: Setup)
      requires Accepted(setup)
      ensures this.setup == setup && Current() == Initial(setup)
    {
      this.setup, this.active := setup, setup.lkg;
      providerOrders := EmptyOrders(setup.profiles);
      replay, receipts := {}, map[];
      executions, replayDenials, profileSwitches, profileRollbacks := 0, 0, 0, 0;
    }

    /** Creates the order at the provider, reads it back and deletes it; the provider ends as it was. */
    method CreateReadDelete(profile: Profile, request: Request) returns (r: Result<Receipt, Denial>)
      requires profile.core.provider.bindingId in providerOrders
      requires providerOrders[profile.core.provider.bindingId] == map[]
      modifies this`providerOrders
      ensures providerOrders == old(providerOrders)
      ensures r == Ok(ReceiptFor(setup.env, profile, request))
    {
      var env, binding := setup.env, profile.core.provider.bindingId;
      var orders := providerOrders[binding];
      var beforeDigest := env.digestOrders(orders);
      var providerRequest := env.encode(profile, request);
      var orderId := env.orderId(profile.profileDigest, request);
      orders := orders[orderId := providerRequest];
      providerOrders := providerOrders[binding := orders];
      var mutationDigest := env.digestOrders(orders);
      var readback := orders[orderId];
      if env.digestText(readback) != env.digestText(providerRequest) {
        return Err(ERP_ORDER_READBACK_DENIED);
      }
      var readbackDigest := env.digestReadback(readback, orderId);
      orders := orders - {orderId};
      assert orders == map[];
      providerOrders := providerOrders[binding := orders];
      var finalDigest := env.digestOrders(orders);
      if finalDigest != beforeDigest {
        return Err(ERP_ORDER_ROLLBACK_DENIED);
      }
      var core := ReceiptCore(profile.core.provider.profileId, profile.profileDigest, binding,
                              env.digestText(request.requestId), env.digestRequest(request),
                              env.digestText(providerRequest), orderId, readbackDigest, beforeDigest, mutationDigest,
                              finalDigest);
      r := Ok(Receipt(core, env.digestReceipt(core)));
    }

    /** An admitted request: marked as seen first, then carried out by the active profile. */
    method Perform(request: Request) returns (r: Result<Receipt, Denial>)
      requires Accepted(setup) && active in setup.profiles && providerOrders == EmptyOrders(setup.profiles)
      modifies this`replay, this`providerOrders, this`receipts, this`executions
      ensures r == Ok(ReceiptFor(setup.env, setup.profiles[active], request))
      ensures replay == old(replay) + {request.requestId} && providerOrders == old(providerOrders)
      ensures receipts == old(receipts)[request.requestId := r.value] && executions == old(executions) + 1
    {
      replay := replay + {request.requestId};
      var profile := setup.profiles[active];
      assert Conforms(setup.env, profile, active);
      match ProfileDenial(setup.env, profile) {
        case Some(denial) => return Err(denial);
        case None =>
      }
      NothingAtProvider(setup.profiles, active);
      r := CreateReadDelete(profile, request);
      if r.Ok? {
        receipts := receipts[request.requestId := r.value];
        executions := executions + 1;
      }
    }

    method Execute(request: Request) returns (r: Result<Receipt, Denial>)
      requires Sound(setup, Current())
      modifies this
      ensures Current() == old(Executed(setup, Current(), request).0)
      ensures r == old(Executed(setup, Current(), request).1)
      ensures Sound(setup, Current())
    {
      ghost var before := Current();
      if !setup.env.validRequest(request) {
        r := Err(ERP_ORDER_REQUEST_DENIED);
      } else if request.requestId in replay {
        replayDenials := replayDenials + 1;
        r := Err(ERP_ORDER_REPLAY_DENIED);
      } else {
        r := Perform(request);
      }
      assert Current() == Executed(setup, before, request).0;
      ExecutedKeepsSound(setup, before, request);
    }

    method Switch(from: string, to: string, outcome: SwitchOutcome) returns (r: Result<SwitchReceipt, Denial>)
      requires Sound(setup, Current())
      modifies this`active, this`profileSwitches, this`profileRollbacks
      ensures Current() == old(Switched(setup, Current(), from, to, outcome).0)
      ensures r == old(Switched(setup, Current(), from, to, outcome).1)
      ensures Sound(setup, Current())
    {
      SwitchedKeepsSound(setup, Current(), from, to, outcome);
      if active != from || from == to || from !in setup.profiles || to !in setup.profiles {
        return Err(ERP_PROFILE_EXACT_SWITCH_DENIED);
      }
      var f, t := setup.profiles[from], setup.profiles[to];
      assert Conforms(setup.env, f, from) && Conforms(setup.env, t, to);
      match ProfileDenial(setup.env, t) {
        case Some(denial) => return Err(denial);
        case None =>
      }
      if f.core.actionDigest != t.core.actionDigest || f.core.semanticId != t.core.semanticId {
        return Err(ERP_PROFILE_INCOMPATIBLE_SEMANTICS_DENIED);
      }
      if Residue(providerOrders) {
        return Err(ERP_PROFILE_RESIDUE_DENIED);
      }
      active := to;
      if outcome == EXACT_PROFILE_SWITCHED {
        profileSwitches := profileSwitches + 1;
      } else {
        profileRollbacks := profileRollbacks + 1;
      }
      r := Ok(SwitchReceiptFor(setup.env, outcome, f, t));
    }

    method SwitchProfile(from: string, to: string) returns (r: Result<SwitchReceipt, Denial>)
      requires Sound(setup, Current())
      modifies this`active, this`profileSwitches, this`profileRollbacks
      ensures (Current(), r) == old(Switched(setup, Current(), from, to, EXACT_PROFILE_SWITCHED))
      ensures Sound(setup, Current())
    {
      r := Switch(from, to, EXACT_PROFILE_SWITCHED);
    }

    method RollbackProfile(receipt: SwitchReceipt) returns (r: Result<SwitchReceipt, Denial>)
      requires Sound(setup, Current())
      modifies this`active, this`profileSwitches, this`profileRollbacks
      ensures (Current(), r) == old(RolledBack(setup, Current(), receipt))
      ensures Sound(setup, Current())
    {
      if !ReceiptMatches(setup, active, receipt) {
        return Err(ERP_PROFILE_ROLLBACK_DENIED);
      }
      r := Switch(receipt.core.to, receipt.core.from, EXACT_PROFILE_ROLLED_BACK);
    }

    method Reset()
      requires Sound(setup, Current())
      modifies this
      ensures Current() == Initial(setup)
      ensures Sound(setup, Current())
    {
      InitialIsSound(setup);
      EmptiedAgain(setup.profiles);
      providerOrders := Emptied(providerOrders);
      receipts := map[];
      replay := {};
      active := setup.lkg;
      executions, replayDenials, profileSwitches, profileRollbacks := 0, 0, 0, 0;
    }
  }

  lemma TwoFiled(a: Profile, b: Profile)
    requires a.profileDigest != b.profileDigest
    ensures var filed := map[a.profileDigest := a, b.profileDigest := b]; |filed| == 2 && filed.Values == {a, b}
  {
    var filed := map[a.profileDigest := a, b.profileDigest := b];
    assert filed[a.profileDigest] == a && filed[b.profileDigest] == b;
    assert filed.Keys == {a.profileDigest, b.profileDigest};
  }

  /** Construction: accepted exactly with two conformant profiles under different digests, one of them active. */
  method Register(env: Env, offered: seq<Profile>, active: string) returns (r: Result<Setup, Denial>)
    ensures r.Ok? <==>
      && |offered| == 2
      && ProfileDenial(env, offered[0]).None? && ProfileDenial(env, offered[1]).None?
      && offered[0].profileDigest != offered[1].profileDigest
      && active in [offered[0].profileDigest, offered[1].profileDigest]
    ensures r.Ok? ==> Accepted(r.value) && r.value.env == env && r.value.lkg == active
    ensures r.Ok? ==> r.value.profiles.Values == {offered[0], offered[1]}
    ensures |offered| != 2 ==> r == Err(ERP_PROFILE_SET_DENIED)
    ensures |offered| == 2 ==>
      var first, second := ProfileDenial(env, offered[0]), ProfileDenial(env, offered[1]);
      && (first.Some? ==> r == Err(first.value))
      && (first.None? && second.Some? ==> r == Err(second.value))
      && (first.None? && second.None? && offered[0].profileDigest == offered[1].profileDigest
          ==> r == Err(ERP_PROFILE_SET_DENIED))
  {
    if |offered| != 2 {
      return Err(ERP_PROFILE_SET_DENIED);
    }
    var profiles: map<string, Profile> := map[];
    for i := 0 to |offered|
      invariant forall j | 0 <= j < i :: ProfileDenial(env, offered[j]).None?
      invariant i == 0 ==> profiles == map[]
      invariant i == 1 ==> profiles == map[offered[0].profileDigest := offered[0]]
      invariant i == 2 ==> offered[0].profileDigest != offered[1].profileDigest
      invariant i == 2 ==>
        profiles == map[offered[0].profileDigest := offered[0], offered[1].profileDigest := offered[1]]
    {
      var denial := ProfileDenial(env, offered[i]);
      if denial.Some? {
        return Err(denial.value);
      }
      if offered[i].profileDigest in profiles {
        return Err(ERP_PROFILE_SET_DENIED);
      }
      profiles := profiles[offered[i].profileDigest := offered[i]];
    }
    if active !in profiles {
      return Err(ERP_PROFILE_EXACT_SWITCH_DENIED);
    }
    TwoFiled(offered[0], offered[1]);
    r := Ok(Setup(env, profiles, active));
  }
}
