/** The deterministic model router: hard constraints, scores, override and fallbacks. Scores
    and costs are real numbers.
 */
module Routing {
  import opened Wrappers
  import opened Ordering

  datatype Availability = Available | Degraded | NotAvailable
  datatype Privacy = Public | Private | OtherPrivacy
  datatype LocalPolicy = AnyLocation | LocalFirst | LocalOnly
  datatype Policy = Best | Cheapest | Fastest | PrivacyFirst | Balanced | CloudFirst | Custom

  datatype Capability =
    | Coding | Reasoning | Architecture | Frontend | DatabaseWork | DevOps | SecurityWork | Testing | Documentation
    | Vision | ToolUse | OtherCapability(text: string)

  datatype TaskType =
    | TaskCode | TaskRefactor | TaskDebug | TaskArchitecture | TaskUI | TaskDatabase | TaskDevOps
    | TaskSecurity | TaskTest | TaskDocumentation | OtherTask(text: string)

  datatype TaskProfile = TaskProfile(
    taskType: TaskType, reasoningRequired: bool, toolUseRequired: bool, visionRequired: bool,
    contextRequired: int, privacy: Privacy)

  datatype ModelReference = ModelReference(providerID: string, modelID: string)

  datatype ModelProfile = ModelProfile(
    ref: ModelReference, runtimeID: string, runtimeHealthy: bool, capabilities: set<Capability>,
    reasoningScore: real, codingScore: real, reliabilityScore: real, latencyClass: string,
    availability: Availability, local: bool, remote: bool, contextWindow: int,
    memoryBytes: nat, vramBytes: nat, gpuRequired: bool, supportedAgents: seq<string>)

  datatype RoutingRequest = RoutingRequest(
    agentID: string, task: TaskProfile, policy: Option<Policy>, projectPolicy: Option<Policy>,
    organizationPolicy: Option<Policy>, globalPolicy: Option<Policy>, privacyLimit: Privacy,
    localPolicy: LocalPolicy, budget: real, availableRuntime: bool, offline: bool,
    availableMemory: nat, availableVRAM: nat, gpuAvailable: bool,
    models: seq<ModelProfile>, fallbacks: seq<ModelReference>, userOverride: Option<ModelReference>)

  datatype Rejection =
    | NotAvailableNow | NoRuntime | OfflineRemote | UnhealthyRuntime | TooLittleMemory | TooLittleVRAM | NeedsGPU
    | LocalOnlyPolicy | PrivateProject | PrivateTask | ContextTooSmall | NoVision | NoToolUse | AgentIncompatible
    | OverBudget | OverrideViolates

  datatype Candidate = Candidate(
    ref: ModelReference, accepted: bool, score: real, cost: real, rejection: Option<Rejection>)

  datatype Decision = Decision(
    selected: ModelReference, alternatives: seq<Candidate>, rejected: seq<Candidate>, cost: real, confidence: real)

  /** A decision, or the rejected candidates of a request that no model meets. */
  datatype Routed = Chosen(decision: Decision) | NoCompatibleModel(rejected: seq<Candidate>)

  type Estimator = ModelProfile -> real

  // ----------------------------------------------------------- hard constraints

  /** What a model must meet, whatever the policy. */
  predicate Eligible(cost: Estimator, req: RoutingRequest, m: ModelProfile) {
    && !m.availability.NotAvailable?
    && req.availableRuntime
    && !(req.offline && m.remote)
    && (m.runtimeID != "" ==> m.runtimeHealthy)
    && (m.memoryBytes > 0 && req.availableMemory > 0 ==> m.memoryBytes <= req.availableMemory)
    && (m.vramBytes > 0 && req.availableVRAM > 0 ==> m.vramBytes <= req.availableVRAM)
    && (m.gpuRequired ==> req.gpuAvailable)
    && (req.localPolicy.LocalOnly? || req.privacyLimit.Private? || req.task.privacy.Private? ==> m.local)
    && req.task.contextRequired <= m.contextWindow
    && (req.task.visionRequired ==> Vision in m.capabilities)
    && (req.task.toolUseRequired ==> ToolUse in m.capabilities)
    && (m.supportedAgents != [] ==> req.agentID in m.supportedAgents)
    && (req.budget > 0.0 ==> cost(m) <= req.budget)
  }

  /** The first constraint the model fails, in the order they are tried. */
  function FirstFailure(cost: Estimator, req: RoutingRequest, m: ModelProfile): Option<Rejection> {
    if m.availability.NotAvailable? then Some(NotAvailableNow)
    else if !req.availableRuntime then Some(NoRuntime)
    else if req.offline && m.remote then Some(OfflineRemote)
    else if m.runtimeID != "" && !m.runtimeHealthy then Some(UnhealthyRuntime)
    else if m.memoryBytes > 0 && req.availableMemory > 0 && m.memoryBytes > req.availableMemory
    then Some(TooLittleMemory)
    else if m.vramBytes > 0 && req.availableVRAM > 0 && m.vramBytes > req.availableVRAM then Some(TooLittleVRAM)
    else if m.gpuRequired && !req.gpuAvailable then Some(NeedsGPU)
    else if req.localPolicy.LocalOnly? && !m.local then Some(LocalOnlyPolicy)
    else if req.privacyLimit.Private? && !m.local then Some(PrivateProject)
    else if req.task.privacy.Private? && !m.local then Some(PrivateTask)
    else if req.task.contextRequired > m.contextWindow then Some(ContextTooSmall)
    else if req.task.visionRequired && Vision !in m.capabilities then Some(NoVision)
    else if req.task.toolUseRequired && ToolUse !in m.capabilities then Some(NoToolUse)
    else if m.supportedAgents != [] && req.agentID !in m.supportedAgents then Some(AgentIncompatible)
    else if req.budget > 0.0 && cost(m) > req.budget then Some(OverBudget)
    else None
  }

  // ---------------------------------------------------------------------- scores

  function EffectivePolicy(req: RoutingRequest): Policy {
    if req.policy.Some? then req.policy.value
    else if req.projectPolicy.Some? then req.projectPolicy.value
    else if req.organizationPolicy.Some? then req.organizationPolicy.value
    else if req.globalPolicy.Some? then req.globalPolicy.value
    else Balanced
  }

  function Wanted(t: TaskType): Option<Capability> {
    match t
    case TaskCode => Some(Coding)
    case TaskRefactor => Some(Coding)
    case TaskDebug => Some(Coding)
    case TaskArchitecture => Some(Architecture)
    case TaskUI => Some(Frontend)
    case TaskDatabase => Some(DatabaseWork)
    case TaskDevOps => Some(DevOps)
    case TaskSecurity => Some(SecurityWork)
    case TaskTest => Some(Testing)
    case TaskDocumentation => Some(Documentation)
    case OtherTask(_) => None
  }

  function Bonus(yes: bool, weight: real): real {
    if yes then weight else 0.0
  }

  function CapabilityScore(task: TaskProfile, m: ModelProfile): real {
    Bonus(task.reasoningRequired && Reasoning in m.capabilities, 3.0)
    + Bonus(task.toolUseRequired && ToolUse in m.capabilities, 2.0)
    + Bonus(task.visionRequired && Vision in m.capabilities, 3.0)
    + Bonus(Wanted(task.taskType).Some? && Wanted(task.taskType).value in m.capabilities, 3.0)
  }

  /** 1 / (1 + cost); a cost of exactly -1 has no reciprocal and counts for nothing here. */
  function CheapBonus(cost: real): real {
    if 1.0 + cost == 0.0 then 0.0 else 1.0 / (1.0 + cost)
  }

  function PolicyBonus(cost: Estimator, policy: Policy, m: ModelProfile): real {
    match policy
    case Cheapest => CheapBonus(cost(m))
    case Fastest => Bonus(m.latencyClass == "fast", 2.0)
    case Best => m.reasoningScore + m.codingScore
    case PrivacyFirst => Bonus(m.local, 3.0)
    case Balanced => Bonus(m.local, 0.5)
    case CloudFirst => Bonus(m.remote, 2.0)
    case Custom => 0.0
  }

  function Score(cost: Estimator, req: RoutingRequest, m: ModelProfile): real {
    CapabilityScore(req.task, m) + m.reliabilityScore + PolicyBonus(cost, EffectivePolicy(req), m)
    + Bonus(req.localPolicy.LocalFirst? && m.local, 2.0)
  }

  /** The capabilities that a task asks for. */
  predicate Needs(task: TaskProfile, c: Capability) {
    match c
    case Reasoning => task.reasoningRequired
    case ToolUse => task.toolUseRequired
    case Vision => task.visionRequired
    case Coding => task.taskType in {TaskCode, TaskRefactor, TaskDebug}
    case Architecture => task.taskType == TaskArchitecture
    case Frontend => task.taskType == TaskUI
    case DatabaseWork => task.taskType == TaskDatabase
    case DevOps => task.taskType == TaskDevOps
    case SecurityWork => task.taskType == TaskSecurity
    case Testing => task.taskType == TaskTest
    case Documentation => task.taskType == TaskDocumentation
    case OtherCapability(_) => false
  }

  /** The policy in force: the request's own, else the project's, the organization's, the global
      one, and balanced if there is none.
   */
  predicate InForce(req: RoutingRequest, policy: Policy) {
    || req.policy == Some(policy)
    || (req.policy == None && req.projectPolicy == Some(policy))
    || (req.policy == None && req.projectPolicy == None && req.organizationPolicy == Some(policy))
    || (req.policy == None && req.projectPolicy == None && req.organizationPolicy == None &&
        (req.globalPolicy == Some(policy) || (req.globalPolicy == None && policy == Balanced)))
  }

  lemma PolicyInForce(req: RoutingRequest, policy: Policy)
    ensures InForce(req, policy) <==> EffectivePolicy(req) == policy
  {
  }

  /** A model that has every needed capability another one has scores no less, and strictly
      more exactly when it has a needed one that the other lacks.
   */
  lemma CapabilityMeaning(task: TaskProfile, m: ModelProfile, n: ModelProfile)
    requires forall c :: Needs(task, c) && c in m.capabilities ==> c in n.capabilities
    ensures CapabilityScore(task, m) <= CapabilityScore(task, n)
    ensures CapabilityScore(task, m) < CapabilityScore(task, n) <==>
              exists c :: Needs(task, c) && c in n.capabilities && c !in m.capabilities
  {
    var w := Wanted(task.taskType);
    assert task.reasoningRequired ==> Needs(task, Reasoning);
    assert task.toolUseRequired ==> Needs(task, ToolUse);
    assert task.visionRequired ==> Needs(task, Vision);
    assert w.Some? ==> Needs(task, w.value);
    NeedsMeaning(task);
  }

  lemma NeedsMeaning(task: TaskProfile)
    ensures forall c :: Needs(task, c) <==>
              || (task.reasoningRequired && c == Reasoning) || (task.toolUseRequired && c == ToolUse)
              || (task.visionRequired && c == Vision) || Wanted(task.taskType) == Some(c)
  {
  }

  /** A capability that the task asks for is worth 2 points if it is tool use and 3 otherwise;
      any other is worth nothing.
   */
  lemma CapabilityWeight(task: TaskProfile, m: ModelProfile, n: ModelProfile, c: Capability)
    requires c !in m.capabilities && n.capabilities == m.capabilities + {c}
    ensures CapabilityScore(task, n) - CapabilityScore(task, m) ==
              if !Needs(task, c) then 0.0 else if c == ToolUse then 2.0 else 3.0
  {
    var w := Wanted(task.taskType);
    NeedsMeaning(task);
    assert w.Some? ==> w.value !in {Reasoning, ToolUse, Vision};
  }

  /** Between models with the same needed capabilities the higher score is a matter of these
      inequalities, policy by policy: reliability counts under each of them, next to what the
      policy is named after and a preference for local models of weight 2.
   */
  lemma PolicyMeaning(cost: Estimator, req: RoutingRequest, policy: Policy, m: ModelProfile, n: ModelProfile)
    requires InForce(req, policy)
    requires forall c :: Needs(req.task, c) ==> (c in m.capabilities <==> c in n.capabilities)
    ensures
      var better := Score(cost, req, m) > Score(cost, req, n);
      var near := if req.localPolicy != LocalFirst || m.local == n.local then 0.0 else if m.local then 2.0 else -2.0;
      var gap := m.reliabilityScore - n.reliabilityScore + near;
      match policy
      case Cheapest =>
        && (gap >= 0.0 && 0.0 <= cost(m) < cost(n) ==> better)
        && (gap == 0.0 && 0.0 <= cost(m) && 0.0 <= cost(n) ==> (better <==> cost(m) < cost(n)))
        && (gap >= 1.0 && 0.0 <= cost(m) && 0.0 <= cost(n) ==> better)
      case Fastest =>
        better <==>
          gap > (if n.latencyClass == "fast" then 2.0 else 0.0) - (if m.latencyClass == "fast" then 2.0 else 0.0)
      case Best => better <==> gap + m.reasoningScore + m.codingScore > n.reasoningScore + n.codingScore
      case PrivacyFirst => better <==> gap > (if n.local then 3.0 else 0.0) - (if m.local then 3.0 else 0.0)
      case Balanced => better <==> gap > (if n.local then 0.5 else 0.0) - (if m.local then 0.5 else 0.0)
      case CloudFirst => better <==> gap > (if n.remote then 2.0 else 0.0) - (if m.remote then 2.0 else 0.0)
      case Custom => better <==> gap > 0.0
  {
    hide CapabilityScore, Needs;
    PolicyInForce(req, policy);
    SameCapabilities(req.task, m, n);
    if policy.Cheapest? && cost(m) >= 0.0 && cost(n) >= 0.0 {
      Reciprocals(1.0 + cost(m), 1.0 + cost(n));
      ReciprocalRange(1.0 + cost(m));
      ReciprocalRange(1.0 + cost(n));
    }
  }

  lemma SameCapabilities(task: TaskProfile, m: ModelProfile, n: ModelProfile)
    requires forall c :: Needs(task, c) ==> (c in m.capabilities <==> c in n.capabilities)
    ensures CapabilityScore(task, m) == CapabilityScore(task, n)
  {
    hide CapabilityScore;
    CapabilityMeaning(task, m, n);
    CapabilityMeaning(task, n, m);
  }

  lemma ReciprocalRange(a: real)
    requires a >= 1.0
    ensures 0.0 < 1.0 / a <= 1.0
  {
    var x := 1.0 / a;
    assert x * a == 1.0;
    assert x > 1.0 ==> x * a > 1.0 * a;
  }

  lemma Reciprocals(a: real, b: real)
    requires a > 0.0 && b > 0.0
    ensures 1.0 / a > 1.0 / b <==> a < b
  {
    var x, y := 1.0 / a, 1.0 / b;
    assert x * a == 1.0 && y * b == 1.0;
    assert x > 0.0 && y > 0.0;
    assert a < b ==> y * a < y * b;
    assert a >= b ==> y * a >= y * b;
    assert x <= y ==> x * a <= y * a;
    assert x > y ==> x * a > y * a;
  }

  function Evaluate(cost: Estimator, req: RoutingRequest, m: ModelProfile): (c: Candidate)
    ensures c.ref == m.ref && (c.accepted <==> Eligible(cost, req, m))
  {
    var failure := FirstFailure(cost, req, m);
    if failure.Some? then Candidate(m.ref, false, 0.0, cost(m), failure)
    else Candidate(m.ref, true, Score(cost, req, m), cost(m), None)
  }

  // ------------------------------------------------------------------------ order

  /** `a` is listed before `b`: higher score, then provider, then model id. */
  predicate Ahead(a: Candidate, b: Candidate) {
    if a.score != b.score then a.score > b.score
    else if a.ref.providerID != b.ref.providerID then Below(a.ref.providerID, b.ref.providerID)
    else Below(a.ref.modelID, b.ref.modelID)
  }

  lemma AheadTransitive(a: Candidate, b: Candidate, c: Candidate)
    requires Ahead(a, b) && Ahead(b, c)
    ensures Ahead(a, c)
  {
    if a.score == b.score == c.score {
      var x, y, z := a.ref.providerID, b.ref.providerID, c.ref.providerID;
      if x != y && y != z {
        BelowTransitive(x, y, z);
        if x == z { BelowIrreflexive(x); }
      } else if x == y == z {
        BelowTransitive(a.ref.modelID, b.ref.modelID, c.ref.modelID);
      }
    }
  }

  lemma AheadTotal(a: Candidate, b: Candidate)
    ensures Ahead(a, b) || Ahead(b, a) || a.ref == b.ref
    ensures !(Ahead(a, b) && Ahead(b, a))
  {
    BelowTotal(a.ref.providerID, b.ref.providerID);
    BelowTotal(a.ref.modelID, b.ref.modelID);
    if Ahead(a, b) && Ahead(b, a) {
      AheadTransitive(a, b, a);
      BelowIrreflexive(a.ref.modelID);
    }
  }

  /** No later candidate is ahead of an earlier one. */
  ghost predicate InOrder(s: seq<Candidate>) {
    forall i, j :: 0 <= i < j < |s| ==> !Ahead(s[j], s[i])
  }

  predicate Tied(a: Candidate, b: Candidate) {
    !Ahead(a, b) && !Ahead(b, a)
  }

  /** The candidates of `s` that the order does not tell from `c`. */
  function TiedWith(c: Candidate, s: seq<Candidate>): seq<Candidate> {
    if s == [] then []
    else TiedWith(c, s[..|s| - 1]) + if Tied(c, s[|s| - 1]) then [s[|s| - 1]] else []
  }

  /** `c` put behind everything of an ordered list that it is not ahead of. */
  function Place(s: seq<Candidate>, c: Candidate): seq<Candidate> {
    if s == [] || !Ahead(c, s[|s| - 1]) then s + [c]
    else Place(s[..|s| - 1], c) + [s[|s| - 1]]
  }

  /** What `sort.SliceStable` makes of a list. */
  function SortStable(s: seq<Candidate>): seq<Candidate> {
    if s == [] then [] else Place(SortStable(s[..|s| - 1]), s[|s| - 1])
  }

  lemma {:induction false} PlaceKeepsOrder(s: seq<Candidate>, c: Candidate)
    requires InOrder(s)
    ensures InOrder(Place(s, c)) && multiset(Place(s, c)) == multiset(s) + multiset{c}
  {
    hide Ahead;
    if s != [] && Ahead(c, s[|s| - 1]) {
      var init, last := s[..|s| - 1], s[|s| - 1];
      assert s == init + [last];
      PlaceKeepsOrder(init, c);
      forall i | 0 <= i < |Place(init, c)| ensures !Ahead(last, Place(init, c)[i]) {
        assert Place(init, c)[i] in multiset(Place(init, c));
        AheadTotal(c, last);
      }
    } else {
      forall i | 0 <= i < |s| ensures !Ahead(c, s[i]) {
        if Ahead(c, s[i]) && i < |s| - 1 {
          NotBehind(c, s[i], s[|s| - 1]);
        }
      }
    }
  }

  lemma NotBehind(c: Candidate, a: Candidate, b: Candidate)
    requires Ahead(c, a) && !Ahead(b, a)
    ensures Ahead(c, b)
  {
    AheadTotal(a, b);
    if Ahead(a, b) {
      AheadTransitive(c, a, b);
    } else if a.score != b.score {
      assert false;
    }
  }

  lemma {:induction false} PlaceIsStable(s: seq<Candidate>, c: Candidate, t: Candidate)
    requires InOrder(s)
    ensures TiedWith(t, Place(s, c)) == TiedWith(t, s + [c])
  {
    assert (s + [c])[..|s|] == s;
    if s != [] && Ahead(c, s[|s| - 1]) {
      var init, last := s[..|s| - 1], s[|s| - 1];
      PlaceIsStable(init, c, t);
      assert (Place(init, c) + [last])[..|Place(init, c)|] == Place(init, c);
      assert (init + [c])[..|init|] == init;
      if Tied(t, c) && Tied(t, last) {
        TiesJoin(c, t, last);
      }
    }
  }

  lemma TiesJoin(a: Candidate, t: Candidate, b: Candidate)
    requires Tied(t, a) && Tied(t, b)
    ensures Tied(a, b)
  {
    if Ahead(a, b) { NotBehind(a, b, t); }
    if Ahead(b, a) { NotBehind(b, a, t); }
  }

  /** The sort is a permutation, in order, and leaves ties as they were. */
  lemma {:induction false} SortMeaning(s: seq<Candidate>, t: Candidate)
    ensures InOrder(SortStable(s)) && multiset(SortStable(s)) == multiset(s)
    ensures TiedWith(t, SortStable(s)) == TiedWith(t, s)
  {
    if s != [] {
      var init, last := s[..|s| - 1], s[|s| - 1];
      assert s == init + [last];
      SortMeaning(init, t);
      PlaceKeepsOrder(SortStable(init), last);
      PlaceIsStable(SortStable(init), last, t);
      assert (SortStable(init) + [last])[..|SortStable(init)|] == SortStable(init);
    }
  }

  /** Where equal names mean equal candidates, the order has one listing. */
  lemma {:induction false} OrderUnique(a: seq<Candidate>, b: seq<Candidate>)
    requires InOrder(a) && InOrder(b) && multiset(a) == multiset(b)
    requires forall x, y :: x in a && y in a && x.ref == y.ref ==> x == y
    ensures a == b
  {
    hide Ahead, InOrder;
    assert |multiset(a)| == |a| && |multiset(b)| == |b|;
    if a == [] {
      assert b == [];
    } else {
      FirstIsFirst(a, b);
      TailOf(a);
      TailOf(b);
      OrderUnique(a[1..], b[1..]);
      assert a == [a[0]] + a[1..] && b == [b[0]] + b[1..];
    }
  }

  lemma TailOf(s: seq<Candidate>)
    requires s != []
    ensures multiset(s[1..]) == multiset(s) - multiset{s[0]}
    ensures InOrder(s) ==> InOrder(s[1..])
  {
    hide Ahead;
    assert s == [s[0]] + s[1..];
  }

  lemma FirstIsFirst(a: seq<Candidate>, b: seq<Candidate>)
    requires a != [] && b != [] && InOrder(a) && InOrder(b) && multiset(a) == multiset(b)
    requires forall x, y :: x in a && y in a && x.ref == y.ref ==> x == y
    ensures a[0] == b[0]
  {
    hide Ahead;
    assert b[0] in multiset(a) && a[0] in multiset(b);
    var i :| 0 <= i < |a| && a[i] == b[0];
    var j :| 0 <= j < |b| && b[j] == a[0];
    AheadTotal(a[0], b[0]);
  }

  // ------------------------------------------------------------------- the decision

  /** The candidates of the accepted, or of the refused models, in the order of the models. */
  function Judged(cost: Estimator, req: RoutingRequest, models: seq<ModelProfile>, accepted: bool): seq<Candidate> {
    if models == [] then []
    else
      var c := Evaluate(cost, req, models[|models| - 1]);
      Judged(cost, req, models[..|models| - 1], accepted) + if c.accepted == accepted then [c] else []
  }

  function Position(cs: seq<Candidate>, ref: ModelReference): (r: Option<nat>)
    ensures r.Some? ==> r.value < |cs| && cs[r.value].ref == ref && forall i :: 0 <= i < r.value ==> cs[i].ref != ref
    ensures r.None? <==> forall i :: 0 <= i < |cs| ==> cs[i].ref != ref
  {
    if cs == [] then None
    else
      var r := Position(cs[..|cs| - 1], ref);
      assert r.None? ==> forall i :: 0 <= i < |cs| - 1 ==> cs[i] == cs[..|cs| - 1][i];
      if r.Some? then r else if cs[|cs| - 1].ref == ref then Some(|cs| - 1) else None
  }

  const REFUSED := Some(OverrideViolates)

  /** The lists after the override: the model it names alone, or nothing accepted any more. */
  function Overridden(ref: ModelReference, accepted: seq<Candidate>, rejected: seq<Candidate>)
    : (seq<Candidate>, seq<Candidate>)
  {
    var i := Position(accepted, ref);
    if i.Some? then ([accepted[i.value]], rejected + accepted[..i.value] + accepted[i.value + 1..])
    else ([], rejected + [Candidate(ref, false, 0.0, 0.0, REFUSED)])
  }

  function Clamp(score: real): (r: real)
    ensures 0.0 <= r <= 1.0 && (0.0 <= score <= 1.0 ==> r == score)
    ensures (score <= 0.0 ==> r == 0.0) && (score >= 1.0 ==> r == 1.0)
  {
    if score < 0.0 then 0.0 else if score > 1.0 then 1.0 else score
  }

  function Pick(accepted: seq<Candidate>, rejected: seq<Candidate>): Routed {
    if accepted == [] then NoCompatibleModel(rejected)
    else
      SortMeaning(accepted, accepted[0]);
      assert |multiset(SortStable(accepted))| == |accepted|;
      var ranked := SortStable(accepted);
      Chosen(Decision(ranked[0].ref, ranked[1..], rejected, ranked[0].cost, Clamp(ranked[0].score)))
  }

  /** What the router answers. */
  function Route(cost: Estimator, req: RoutingRequest): Routed {
    var accepted, rejected := Judged(cost, req, req.models, true), Judged(cost, req, req.models, false);
    if req.userOverride.Some? then
      var lists := Overridden(req.userOverride.value, accepted, rejected);
      Pick(lists.0, lists.1)
    else Pick(accepted, rejected)
  }

  method PolicyOf(req: RoutingRequest) returns (policy: Policy)
    ensures policy == EffectivePolicy(req) && InForce(req, policy)
  {
    if req.policy.Some? {
      return req.policy.value;
    }
    if req.projectPolicy.Some? {
      return req.projectPolicy.value;
    }
    if req.organizationPolicy.Some? {
      return req.organizationPolicy.value;
    }
    if req.globalPolicy.Some? {
      return req.globalPolicy.value;
    }
    return Balanced;
  }

  /** The weights of what the task requires, and of what its type is about. */
  method ScoreCapabilities(task: TaskProfile, m: ModelProfile) returns (score: real)
    ensures score == CapabilityScore(task, m)
  {
    score := 0.0;
    if task.reasoningRequired && Reasoning in m.capabilities {
      score := score + 3.0;
    }
    if task.toolUseRequired && ToolUse in m.capabilities {
      score := score + 2.0;
    }
    if task.visionRequired && Vision in m.capabilities {
      score := score + 3.0;
    }
    var wanted: Option<Capability>;
    match task.taskType {
      case TaskCode => wanted := Some(Coding);
      case TaskRefactor => wanted := Some(Coding);
      case TaskDebug => wanted := Some(Coding);
      case TaskArchitecture => wanted := Some(Architecture);
      case TaskUI => wanted := Some(Frontend);
      case TaskDatabase => wanted := Some(DatabaseWork);
      case TaskDevOps => wanted := Some(DevOps);
      case TaskSecurity => wanted := Some(SecurityWork);
      case TaskTest => wanted := Some(Testing);
      case TaskDocumentation => wanted := Some(Documentation);
      case OtherTask(_) => wanted := None;
    }
    if wanted.Some? && wanted.value in m.capabilities {
      score := score + 3.0;
    }
  }

  /** The points of a model that meets the constraints. */
  method ScoreModel(cost: Estimator, req: RoutingRequest, policy: Policy, m: ModelProfile) returns (score: real)
    requires policy == EffectivePolicy(req)
    ensures score == Score(cost, req, m)
  {
    hide CapabilityScore;
    score := ScoreCapabilities(req.task, m);
    score := score + m.reliabilityScore;
    match policy {
      case Cheapest =>
        if 1.0 + cost(m) != 0.0 {
          score := score + 1.0 / (1.0 + cost(m));
        }
      case Fastest =>
        if m.latencyClass == "fast" {
          score := score + 2.0;
        }
      case Best =>
        score := score + m.reasoningScore + m.codingScore;
      case PrivacyFirst =>
        if m.local {
          score := score + 3.0;
        }
      case Balanced =>
        if m.local {
          score := score + 0.5;
        }
      case CloudFirst =>
        if m.remote {
          score := score + 2.0;
        }
      case Custom =>
    }
    if req.localPolicy.LocalFirst? && m.local {
      score := score + 2.0;
    }
  }

  /** `Router.evaluate`: the constraints one after the other, and then the score. */
  method EvaluateModel(cost: Estimator, req: RoutingRequest, policy: Policy, m: ModelProfile) returns (c: Candidate)
    requires policy == EffectivePolicy(req)
    ensures c == Evaluate(cost, req, m)
  {
    hide Score;
    var failure := Unmet(cost, req, m);
    if failure.Some? {
      return Candidate(m.ref, false, 0.0, cost(m), failure);
    }
    var score := ScoreModel(cost, req, policy, m);
    return Candidate(m.ref, true, score, cost(m), None);
  }

  method Unmet(cost: Estimator, req: RoutingRequest, m: ModelProfile) returns (failure: Option<Rejection>)
    ensures failure == FirstFailure(cost, req, m)
  {
    if m.availability != Available && m.availability != Degraded {
      return Some(NotAvailableNow);
    }
    if !req.availableRuntime {
      return Some(NoRuntime);
    }
    if req.offline && m.remote {
      return Some(OfflineRemote);
    }
    if m.runtimeID != "" && !m.runtimeHealthy {
      return Some(UnhealthyRuntime);
    }
    if m.memoryBytes > 0 && req.availableMemory > 0 && m.memoryBytes > req.availableMemory {
      return Some(TooLittleMemory);
    }
    if m.vramBytes > 0 && req.availableVRAM > 0 && m.vramBytes > req.availableVRAM {
      return Some(TooLittleVRAM);
    }
    if m.gpuRequired && !req.gpuAvailable {
      return Some(NeedsGPU);
    }
    if req.localPolicy == LocalOnly && !m.local {
      return Some(LocalOnlyPolicy);
    }
    if req.privacyLimit == Private && !m.local {
      return Some(PrivateProject);
    }
    if req.task.privacy == Private && !m.local {
      return Some(PrivateTask);
    }
    if req.task.contextRequired > m.contextWindow {
      return Some(ContextTooSmall);
    }
    if req.task.visionRequired && Vision !in m.capabilities {
      return Some(NoVision);
    }
    if req.task.toolUseRequired && ToolUse !in m.capabilities {
      return Some(NoToolUse);
    }
    if |m.supportedAgents| > 0 && req.agentID !in m.supportedAgents {
      return Some(AgentIncompatible);
    }
    if req.budget > 0.0 && cost(m) > req.budget {
      return Some(OverBudget);
    }
    return None;
  }

  /** `Router.Decide`. */
  method Decide(cost: Estimator, req: RoutingRequest) returns (r: Routed)
    ensures r == Route(cost, req)
  {
    var policy := PolicyOf(req);
    var accepted: seq<Candidate>, rejected: seq<Candidate> := [], [];
    for k := 0 to |req.models|
      invariant accepted == Judged(cost, req, req.models[..k], true)
      invariant rejected == Judged(cost, req, req.models[..k], false)
    {
      var candidate := EvaluateModel(cost, req, policy, req.models[k]);
      assert req.models[..k + 1][..k] == req.models[..k];
      if candidate.accepted {
        accepted := accepted + [candidate];
      } else {
        rejected := rejected + [candidate];
      }
    }
    assert req.models[..|req.models|] == req.models;
    if req.userOverride.Some? {
      accepted, rejected := ApplyOverride(req.userOverride.value, accepted, rejected);
    }
    if |accepted| == 0 {
      return NoCompatibleModel(rejected);
    }
    SortMeaning(accepted, accepted[0]);
    assert |multiset(SortStable(accepted))| == |accepted|;
    var ranked := SortStable(accepted);
    var confidence := Confidence(ranked[0].score);
    r := Chosen(Decision(ranked[0].ref, ranked[1..], rejected, ranked[0].cost, confidence));
  }

  method Confidence(score: real) returns (r: real)
    ensures r == Clamp(score)
  {
    if score < 0.0 {
      return 0.0;
    }
    if score > 1.0 {
      return 1.0;
    }
    return score;
  }

  method ApplyOverride(ref: ModelReference, accepted: seq<Candidate>, rejected: seq<Candidate>)
    returns (kept: seq<Candidate>, dropped: seq<Candidate>)
    ensures (kept, dropped) == Overridden(ref, accepted, rejected)
  {
    for i := 0 to |accepted|
      invariant forall j :: 0 <= j < i ==> accepted[j].ref != ref
    {
      if accepted[i].ref == ref {
        return [accepted[i]], rejected + accepted[..i] + accepted[i + 1..];
      }
    }
    return [], rejected + [Candidate(ref, false, 0.0, 0.0, REFUSED)];
  }

  // ----------------------------------------------------------- what the answer means

  lemma {:induction false} JudgedMember(cost: Estimator, req: RoutingRequest, models: seq<ModelProfile>,
          accepted: bool, c: Candidate)
    ensures c in Judged(cost, req, models, accepted) <==>
            c.accepted == accepted && exists m :: m in models && Evaluate(cost, req, m) == c
  {
    hide Evaluate;
    if models != [] {
      var init, last := models[..|models| - 1], models[|models| - 1];
      assert forall m :: m in models <==> m in init || m == last;
      JudgedMember(cost, req, init, accepted, c);
    }
  }

  lemma {:induction false} JudgedSplit(cost: Estimator, req: RoutingRequest, a: seq<ModelProfile>,
          b: seq<ModelProfile>, accepted: bool)
    ensures Judged(cost, req, a + b, accepted) == Judged(cost, req, a, accepted) + Judged(cost, req, b, accepted)
  {
    hide Evaluate;
    if b == [] {
      assert a + b == a;
    } else {
      var init := b[..|b| - 1];
      assert (a + b)[..|a + b| - 1] == a + init;
      JudgedSplit(cost, req, a, init, accepted);
    }
  }

  lemma JudgedWithout(cost: Estimator, req: RoutingRequest, b: seq<ModelProfile>, i: nat, accepted: bool)
    requires i < |b|
    ensures multiset(Judged(cost, req, b, accepted))
         == multiset(Judged(cost, req, b[..i] + b[i + 1..], accepted)) + multiset(Judged(cost, req, [b[i]], accepted))
  {
    hide Judged;
    assert b == b[..i] + [b[i]] + b[i + 1..];
    JudgedSplit(cost, req, b[..i], b[i + 1..], accepted);
    JudgedSplit(cost, req, b[..i], [b[i]], accepted);
    JudgedSplit(cost, req, b[..i] + [b[i]], b[i + 1..], accepted);
  }

  lemma WithoutOne<T>(b: seq<T>, i: nat)
    requires i < |b|
    ensures multiset(b[..i] + b[i + 1..]) == multiset(b) - multiset{b[i]}
  {
    assert b == b[..i] + [b[i]] + b[i + 1..];
  }

  /** Reordering the models reorders the candidates. */
  lemma {:induction false} JudgedPermuted(cost: Estimator, req: RoutingRequest, a: seq<ModelProfile>,
          b: seq<ModelProfile>, accepted: bool)
    requires multiset(a) == multiset(b)
    ensures multiset(Judged(cost, req, a, accepted)) == multiset(Judged(cost, req, b, accepted))
  {
    hide Judged;
    assert |multiset(a)| == |a| && |multiset(b)| == |b|;
    if a == [] {
      assert a == b;
    } else {
      assert a[0] in multiset(b);
      var i :| 0 <= i < |b| && b[i] == a[0];
      WithoutOne(a, 0);
      WithoutOne(b, i);
      JudgedPermuted(cost, req, a[..0] + a[1..], b[..i] + b[i + 1..], accepted);
      JudgedWithout(cost, req, a, 0, accepted);
      JudgedWithout(cost, req, b, i, accepted);
    }
  }

  lemma JudgedLast(cost: Estimator, req: RoutingRequest, models: seq<ModelProfile>, accepted: bool)
    requires models != []
    ensures var c := Evaluate(cost, req, models[|models| - 1]);
            Judged(cost, req, models, accepted) ==
            if c.accepted == accepted then Judged(cost, req, models[..|models| - 1], accepted) + [c]
            else Judged(cost, req, models[..|models| - 1], accepted)
  {
    hide Evaluate;
  }

  function Refs(cs: seq<Candidate>): seq<ModelReference> {
    if cs == [] then [] else Refs(cs[..|cs| - 1]) + [cs[|cs| - 1].ref]
  }

  function ModelRefs(models: seq<ModelProfile>): seq<ModelReference> {
    if models == [] then [] else ModelRefs(models[..|models| - 1]) + [models[|models| - 1].ref]
  }

  lemma {:induction false} RefsSplit(a: seq<Candidate>, b: seq<Candidate>)
    ensures Refs(a + b) == Refs(a) + Refs(b)
  {
    if b == [] {
      assert a + b == a;
    } else {
      assert (a + b)[..|a + b| - 1] == a + b[..|b| - 1];
      RefsSplit(a, b[..|b| - 1]);
    }
  }

  lemma RefsHead(s: seq<Candidate>)
    requires s != []
    ensures Refs(s) == [s[0].ref] + Refs(s[1..])
  {
    assert s == [s[0]] + s[1..];
    RefsSplit([s[0]], s[1..]);
  }

  lemma NoRefs()
    ensures Refs([]) == []
  {
  }

  lemma {:induction false} RefsPlaced(s: seq<Candidate>, c: Candidate)
    ensures multiset(Refs(Place(s, c))) == multiset(Refs(s)) + multiset{c.ref}
  {
    hide Ahead;
    if s == [] || !Ahead(c, s[|s| - 1]) {
      RefsSplit(s, [c]);
    } else {
      RefsPlaced(s[..|s| - 1], c);
      RefsSplit(Place(s[..|s| - 1], c), [s[|s| - 1]]);
    }
  }

  lemma {:induction false} RefsSorted(s: seq<Candidate>)
    ensures multiset(Refs(SortStable(s))) == multiset(Refs(s))
  {
    hide Place;
    if s != [] {
      RefsSorted(s[..|s| - 1]);
      RefsPlaced(SortStable(s[..|s| - 1]), s[|s| - 1]);
    }
  }

  /** Every model is judged once. */
  lemma {:induction false} JudgedRefs(cost: Estimator, req: RoutingRequest, models: seq<ModelProfile>)
    ensures multiset(Refs(Judged(cost, req, models, true))) + multiset(Refs(Judged(cost, req, models, false)))
         == multiset(ModelRefs(models))
  {
    hide Evaluate;
    if models != [] {
      var init := models[..|models| - 1];
      JudgedRefs(cost, req, init);
      JudgedLast(cost, req, models, true);
      JudgedLast(cost, req, models, false);
      var c := Evaluate(cost, req, models[|models| - 1]);
      RefsSplit(Judged(cost, req, init, true), [c]);
      RefsSplit(Judged(cost, req, init, false), [c]);
    }
  }

  /** The models the answer speaks of. */
  function Mentioned(r: Routed): seq<ModelReference> {
    match r
    case Chosen(d) => [d.selected] + Refs(d.alternatives) + Refs(d.rejected)
    case NoCompatibleModel(rejected) => Refs(rejected)
  }

  lemma PickMentions(accepted: seq<Candidate>, rejected: seq<Candidate>)
    ensures multiset(Mentioned(Pick(accepted, rejected))) == multiset(Refs(accepted)) + multiset(Refs(rejected))
  {
    hide SortStable, Refs, InOrder;
    if accepted != [] {
      SortMeaning(accepted, accepted[0]);
      assert |multiset(SortStable(accepted))| == |accepted|;
      RefsSorted(accepted);
      RefsHead(SortStable(accepted));
    } else {
      NoRefs();
    }
  }

  /** Some model meets every hard constraint and, if a model is named, is that model. */
  ghost predicate Routable(cost: Estimator, req: RoutingRequest, wanted: Option<ModelReference>) {
    exists m :: m in req.models && Eligible(cost, req, m) && (wanted.Some? ==> m.ref == wanted.value)
  }

  /** Every model is mentioned exactly once if and only if no override is refused: then the
      accepted candidates are forgotten and the refused reference takes their place.
   */
  lemma RoutePartition(cost: Estimator, req: RoutingRequest)
    ensures multiset(Mentioned(Route(cost, req))) == multiset(ModelRefs(req.models)) <==>
              req.userOverride.None? || Routable(cost, req, req.userOverride)
    ensures req.userOverride.Some? && !Routable(cost, req, req.userOverride) ==>
              Route(cost, req) == NoCompatibleModel(
                Judged(cost, req, req.models, false) + [Candidate(req.userOverride.value, false, 0.0, 0.0, REFUSED)])
  {
    hide Eligible, Evaluate, Pick, Judged, Refs, Mentioned, Routable, ModelRefs;
    var accepted, rejected := Judged(cost, req, req.models, true), Judged(cost, req, req.models, false);
    JudgedRefs(cost, req, req.models);
    if req.userOverride.None? {
      PickMentions(accepted, rejected);
    } else {
      OverrideMeaning(cost, req);
      var i := Position(accepted, req.userOverride.value);
      if i.Some? {
        var before, after := accepted[..i.value], accepted[i.value + 1..];
        PickMentions([accepted[i.value]], rejected + before + after);
        RefsMoved(accepted, rejected, i.value);
      } else {
        var refused := Candidate(req.userOverride.value, false, 0.0, 0.0, REFUSED);
        EmptyPick(rejected + [refused]);
        PickMentions([], rejected + [refused]);
        RefsSplit(rejected, [refused]);
        RefsHead([refused]);
        NoRefs();
        assert [refused][1..] == [] && Refs(rejected + [refused]) == Refs(rejected) + [refused.ref];
        NotMentioned(accepted, req.userOverride.value);
        RefusedCounts(Refs(accepted), Refs(rejected), req.userOverride.value);
      }
    }
  }

  lemma {:induction false} NotMentioned(cs: seq<Candidate>, ref: ModelReference)
    requires forall i :: 0 <= i < |cs| ==> cs[i].ref != ref
    ensures ref !in Refs(cs)
  {
    if cs != [] {
      NotMentioned(cs[..|cs| - 1], ref);
    }
  }

  lemma RefusedCounts(accepted: seq<ModelReference>, rejected: seq<ModelReference>, ref: ModelReference)
    requires ref !in accepted
    ensures multiset(rejected + [ref]) != multiset(accepted) + multiset(rejected)
  {
    assert multiset(accepted)[ref] == 0;
    assert multiset(rejected + [ref])[ref] == multiset(rejected)[ref] + 1;
  }

  lemma RefsMoved(accepted: seq<Candidate>, rejected: seq<Candidate>, i: nat)
    requires i < |accepted|
    ensures multiset(Refs([accepted[i]])) + multiset(Refs(rejected + accepted[..i] + accepted[i + 1..]))
         == multiset(Refs(accepted)) + multiset(Refs(rejected))
  {
    hide Refs;
    var before, it, after := accepted[..i], [accepted[i]], accepted[i + 1..];
    RefsSplit(rejected + before, after);
    RefsSplit(rejected, before);
    assert accepted == before + it + after;
    RefsSplit(before + it, after);
    RefsSplit(before, it);
  }

  lemma EmptyPick(rejected: seq<Candidate>)
    ensures Pick([], rejected) == NoCompatibleModel(rejected)
  {
  }

  lemma OverrideMeaning(cost: Estimator, req: RoutingRequest)
    requires req.userOverride.Some?
    ensures Position(Judged(cost, req, req.models, true), req.userOverride.value).Some? <==>
              Routable(cost, req, req.userOverride)
  {
    hide Eligible, FirstFailure, Score;
    var accepted := Judged(cost, req, req.models, true);
    var i := Position(accepted, req.userOverride.value);
    if i.Some? {
      JudgedMember(cost, req, req.models, true, accepted[i.value]);
    }
    if Routable(cost, req, req.userOverride) {
      var m :| m in req.models && Eligible(cost, req, m) && m.ref == req.userOverride.value;
      JudgedMember(cost, req, req.models, true, Evaluate(cost, req, m));
      assert Evaluate(cost, req, m) in accepted;
    }
  }

  /** `m` wins over `n`: a higher score or, at equal scores, a smaller reference. */
  predicate Wins(cost: Estimator, req: RoutingRequest, m: ModelProfile, n: ModelProfile) {
    || Score(cost, req, m) > Score(cost, req, n)
    || (Score(cost, req, m) == Score(cost, req, n) &&
        (m.ref == n.ref || Below(m.ref.providerID, n.ref.providerID) ||
         (m.ref.providerID == n.ref.providerID && Below(m.ref.modelID, n.ref.modelID))))
  }

  /** Without an override the router answers exactly when some model is eligible, with the best
      eligible model, and lists the others from better to worse.
   */
  lemma RouteBest(cost: Estimator, req: RoutingRequest)
    requires req.userOverride.None?
    ensures Route(cost, req).Chosen? <==> Routable(cost, req, None)
    ensures Route(cost, req).Chosen? ==>
              var d := Route(cost, req).decision;
              && (exists m :: m in req.models && Eligible(cost, req, m) && m.ref == d.selected && d.cost == cost(m)
                       && d.confidence == Clamp(Score(cost, req, m))
                       && forall n :: n in req.models && Eligible(cost, req, n) ==> Wins(cost, req, m, n))
              && InOrder(d.alternatives)
              && (forall c :: c in d.alternatives ==>
                   exists m :: m in req.models && Eligible(cost, req, m) && c == Evaluate(cost, req, m))
  {
    hide Eligible, Evaluate, Score, Below, Judged, SortStable, Wins, InOrder;
    var accepted := Judged(cost, req, req.models, true);
    AcceptedModels(cost, req);
    if accepted != [] {
      var ranked := SortStable(accepted);
      SortMeaning(accepted, accepted[0]);
      assert |multiset(ranked)| == |accepted|;
      SameMembers(accepted, ranked);
      assert ranked[0] in accepted;
      var m :| m in req.models && Eligible(cost, req, m) && Evaluate(cost, req, m) == ranked[0];
      EvaluatedFields(cost, req, m);
      forall n | n in req.models && Eligible(cost, req, n) ensures Wins(cost, req, m, n) {
        assert Evaluate(cost, req, n) in ranked;
        HeadWins(cost, req, ranked, m, n);
      }
      TailOf(ranked);
      assert forall c :: c in ranked[1..] ==> c in ranked;
    }
  }

  lemma SameMembers<T>(a: seq<T>, b: seq<T>)
    requires multiset(a) == multiset(b)
    ensures forall x :: x in a <==> x in b
  {
    forall x ensures x in a <==> x in b {
      assert x in a <==> x in multiset(a);
      assert x in b <==> x in multiset(b);
    }
  }

  lemma EvaluatedFields(cost: Estimator, req: RoutingRequest, m: ModelProfile)
    requires Eligible(cost, req, m)
    ensures Evaluate(cost, req, m) == Candidate(m.ref, true, Score(cost, req, m), cost(m), None)
  {
    hide Score;
  }

  /** The accepted candidates are those of the eligible models. */
  lemma AcceptedModels(cost: Estimator, req: RoutingRequest)
    ensures forall m :: m in req.models && Eligible(cost, req, m) ==>
              Evaluate(cost, req, m) in Judged(cost, req, req.models, true)
    ensures forall c :: c in Judged(cost, req, req.models, true) ==>
                          exists m :: m in req.models && Eligible(cost, req, m) && Evaluate(cost, req, m) == c
  {
    hide Eligible, FirstFailure, Score, Judged;
    var accepted := Judged(cost, req, req.models, true);
    forall m | m in req.models && Eligible(cost, req, m) ensures Evaluate(cost, req, m) in accepted {
      JudgedMember(cost, req, req.models, true, Evaluate(cost, req, m));
    }
    forall c | c in accepted
      ensures exists m :: m in req.models && Eligible(cost, req, m) && Evaluate(cost, req, m) == c
    {
      JudgedMember(cost, req, req.models, true, c);
      var m :| m in req.models && Evaluate(cost, req, m) == c;
    }
  }

  lemma HeadWins(cost: Estimator, req: RoutingRequest, ranked: seq<Candidate>, m: ModelProfile, n: ModelProfile)
    requires ranked != [] && InOrder(ranked) && ranked[0] == Evaluate(cost, req, m) && Evaluate(cost, req, n) in ranked
    requires Eligible(cost, req, m) && Eligible(cost, req, n)
    ensures Wins(cost, req, m, n)
  {
    hide Eligible, Evaluate, Score, Below;
    var c, d := Evaluate(cost, req, m), Evaluate(cost, req, n);
    EvaluatedFields(cost, req, m);
    EvaluatedFields(cost, req, n);
    AheadTotal(c, d);
    if d != c {
      assert !Ahead(d, c);
    }
  }

  /** With an override the router answers exactly when the named model is eligible, and then
      with that model alone.
   */
  lemma RouteOverride(cost: Estimator, req: RoutingRequest)
    requires req.userOverride.Some?
    ensures Route(cost, req).Chosen? <==> Routable(cost, req, req.userOverride)
    ensures Route(cost, req).Chosen? ==>
              && Route(cost, req).decision.selected == req.userOverride.value
              && Route(cost, req).decision.alternatives == []
  {
    hide Eligible, Evaluate;
    OverrideMeaning(cost, req);
    var accepted := Judged(cost, req, req.models, true);
    var i := Position(accepted, req.userOverride.value);
    if i.Some? {
      assert SortStable([accepted[i.value]]) == [accepted[i.value]];
    }
  }

  predicate Selects(cost: Estimator, req: RoutingRequest, m: ModelProfile) {
    Route(cost, req).Chosen? && Route(cost, req).decision.selected == m.ref
  }

  /** A model is not selected while an eligible one scores more. */
  lemma Outscored(cost: Estimator, req: RoutingRequest, m: ModelProfile, n: ModelProfile)
    requires req.userOverride.None? && OneModelPerRef(req.models) && m in req.models && n in req.models
    requires Eligible(cost, req, m) && Score(cost, req, m) > Score(cost, req, n)
    ensures !Selects(cost, req, n)
  {
    hide Eligible, Score, Selects;
    if Selects(cost, req, n) {
      SelectedWins(cost, req, n, m);
    }
  }

  lemma SelectedWins(cost: Estimator, req: RoutingRequest, n: ModelProfile, m: ModelProfile)
    requires req.userOverride.None? && OneModelPerRef(req.models) && m in req.models && n in req.models
    requires Eligible(cost, req, m) && Selects(cost, req, n)
    ensures Eligible(cost, req, n) && Score(cost, req, n) >= Score(cost, req, m)
  {
    hide Eligible, Score, Route, InOrder;
    RouteBest(cost, req);
    var s :| s in req.models && Eligible(cost, req, s) && s.ref == n.ref && Wins(cost, req, s, m);
    OnlyModel(req.models, s, n);
  }

  lemma OnlyModel(models: seq<ModelProfile>, m: ModelProfile, n: ModelProfile)
    requires OneModelPerRef(models) && m in models && n in models && m.ref == n.ref
    ensures m == n
  {
  }

  /** Of two models that differ in name and reliability only, the less reliable one is never
      selected while the other is eligible, whatever the policy.
   */
  lemma MoreReliableWins(cost: Estimator, req: RoutingRequest, policy: Policy, m: ModelProfile, n: ModelProfile)
    requires req.userOverride.None? && OneModelPerRef(req.models) && m in req.models && n in req.models
    requires Eligible(cost, req, m) && InForce(req, policy) && cost(m) == cost(n)
    requires n == m.(ref := n.ref, reliabilityScore := n.reliabilityScore) && n.reliabilityScore < m.reliabilityScore
    ensures !Selects(cost, req, n)
  {
    hide Eligible, Selects;
    Outscored(cost, req, m, n);
  }

  /** When local models are preferred, a remote model is never selected while an eligible local
      one differs from it in name and place only, except under the cloud-first policy, where
      the two preferences cancel each other out.
   */
  lemma LocalFirstWins(cost: Estimator, req: RoutingRequest, policy: Policy, m: ModelProfile, n: ModelProfile)
    requires req.userOverride.None? && OneModelPerRef(req.models) && m in req.models && n in req.models
    requires Eligible(cost, req, m) && InForce(req, policy) && cost(m) == cost(n) && req.localPolicy == LocalFirst
    requires m.local && !m.remote && n == m.(ref := n.ref, local := false, remote := true)
    ensures policy != CloudFirst ==> !Selects(cost, req, n)
    ensures policy == CloudFirst ==> Score(cost, req, m) == Score(cost, req, n)
  {
    hide Eligible, Selects;
    PolicyInForce(req, policy);
    if policy != CloudFirst {
      Outscored(cost, req, m, n);
    }
  }

  /** Capability outweighs the rest: a model that has every needed capability of another and one
      more is selected before it if reliabilities are within [0, 1] and the policy is balanced,
      custom or, for costs that are not negative, cheapest, unless local models are preferred
      and only the other one is local.
   */
  lemma CapabilityWins(cost: Estimator, req: RoutingRequest, policy: Policy, m: ModelProfile, n: ModelProfile,
          c: Capability)
    requires req.userOverride.None? && OneModelPerRef(req.models) && m in req.models && n in req.models
    requires Eligible(cost, req, m) && InForce(req, policy) && policy in {Balanced, Custom, Cheapest}
    requires forall d :: Needs(req.task, d) && d in n.capabilities ==> d in m.capabilities
    requires Needs(req.task, c) && c in m.capabilities && c !in n.capabilities
    requires 0.0 <= m.reliabilityScore && n.reliabilityScore <= 1.0
    requires policy == Cheapest ==> cost(m) >= 0.0 && cost(n) >= 0.0
    requires req.localPolicy == LocalFirst && n.local ==> m.local
    ensures !Selects(cost, req, n)
  {
    hide Eligible, Selects, CapabilityScore, Needs;
    PolicyInForce(req, policy);
    CapabilityGap(req.task, m, n, c);
    if policy == Cheapest {
      ReciprocalRange(1.0 + cost(m));
      ReciprocalRange(1.0 + cost(n));
    }
    Outscored(cost, req, m, n);
  }

  lemma CapabilityGap(task: TaskProfile, m: ModelProfile, n: ModelProfile, c: Capability)
    requires forall d :: Needs(task, d) && d in n.capabilities ==> d in m.capabilities
    requires Needs(task, c) && c in m.capabilities && c !in n.capabilities
    ensures CapabilityScore(task, m) >= CapabilityScore(task, n) + if c == ToolUse then 2.0 else 3.0
  {
    hide CapabilityScore, Needs;
    var more := n.(capabilities := n.capabilities + {c});
    CapabilityWeight(task, n, more, c);
    CapabilityMeaning(task, more, m);
  }

  /** The simulator's request: a balanced refactoring with reasoning, local models preferred. */
  function SimulatorRequest(models: seq<ModelProfile>): RoutingRequest {
    RoutingRequest("codex", TaskProfile(TaskRefactor, true, false, false, 1000, Public), Some(Balanced), None, None,
                   None, Public, LocalFirst, 0.0, true, false, 0, 0, false, models, [], None)
  }

  const LOCAL_CODE := ModelProfile(
    ModelReference("ollama", "local-code"), "", false, {Coding, OtherCapability("backend"), Reasoning, ToolUse},
    0.0, 0.7, 0.8, "fast", Available, true, false, 32000, 0, 0, false, [])

  const CLOUD_BEST := ModelProfile(
    ModelReference("openai", "cloud-best"), "", false, {Coding, Architecture, Reasoning, ToolUse},
    1.0, 1.0, 0.95, "slow", Available, false, true, 128000, 0, 0, false, [])

  /** There the local model scores 9.3 and the cloud model 6.95, so the local one is selected. */
  lemma SimulatorSelects(cost: Estimator)
    ensures var req := SimulatorRequest([LOCAL_CODE, CLOUD_BEST]);
            && Score(cost, req, LOCAL_CODE) == 9.3 && Score(cost, req, CLOUD_BEST) == 6.95
            && Selects(cost, req, LOCAL_CODE) && Route(cost, req).decision.confidence == 1.0
  {
    hide Route, Score;
    var req := SimulatorRequest([LOCAL_CODE, CLOUD_BEST]);
    assert LOCAL_CODE in req.models && CLOUD_BEST in req.models;
    SimulatorScores(cost);
    RouteBest(cost, req);
    assert Eligible(cost, req, LOCAL_CODE);
    assert Routable(cost, req, None);
    Outscored(cost, req, LOCAL_CODE, CLOUD_BEST);
    assert Selects(cost, req, LOCAL_CODE) <==> Route(cost, req).decision.selected == LOCAL_CODE.ref;
    assert Selects(cost, req, CLOUD_BEST) <==> Route(cost, req).decision.selected == CLOUD_BEST.ref;
  }

  lemma SimulatorScores(cost: Estimator)
    ensures var req := SimulatorRequest([LOCAL_CODE, CLOUD_BEST]);
            Score(cost, req, LOCAL_CODE) == 9.3 && Score(cost, req, CLOUD_BEST) == 6.95
  {
  }

  /** No two different models carry the same provider and model id. */
  predicate OneModelPerRef(models: seq<ModelProfile>) {
    forall i, j :: 0 <= i < |models| && 0 <= j < |models| && models[i].ref == models[j].ref ==> models[i] == models[j]
  }

  predicate SameAnswer(a: Routed, b: Routed) {
    match a
    case Chosen(d) =>
      && b.Chosen? && b.decision.selected == d.selected && b.decision.alternatives == d.alternatives
      && b.decision.cost == d.cost && b.decision.confidence == d.confidence
      && multiset(b.decision.rejected) == multiset(d.rejected)
    case NoCompatibleModel(rejected) => b.NoCompatibleModel? && multiset(b.rejected) == multiset(rejected)
  }

  predicate OneCandidatePerRef(cs: seq<Candidate>) {
    forall x, y :: x in cs && y in cs && x.ref == y.ref ==> x == y
  }

  lemma JudgedOnePerRef(cost: Estimator, req: RoutingRequest, accepted: bool)
    requires OneModelPerRef(req.models)
    ensures OneCandidatePerRef(Judged(cost, req, req.models, accepted))
  {
    hide Eligible, FirstFailure, Score;
    var cs := Judged(cost, req, req.models, accepted);
    forall x, y | x in cs && y in cs && x.ref == y.ref ensures x == y {
      JudgedMember(cost, req, req.models, accepted, x);
      JudgedMember(cost, req, req.models, accepted, y);
    }
  }

  lemma PickUnordered(a: seq<Candidate>, b: seq<Candidate>, x: seq<Candidate>, y: seq<Candidate>)
    requires multiset(a) == multiset(b) && multiset(x) == multiset(y) && OneCandidatePerRef(a)
    ensures SameAnswer(Pick(a, x), Pick(b, y))
  {
    hide SortStable;
    assert |multiset(a)| == |a| && |multiset(b)| == |b|;
    if a != [] {
      SortMeaning(a, a[0]);
      SortMeaning(b, a[0]);
      assert forall c :: c in SortStable(a) <==> c in multiset(SortStable(a));
      assert forall c :: c in a <==> c in multiset(a);
      OrderUnique(SortStable(a), SortStable(b));
    }
  }

  /** The order in which the models are listed does not matter. */
  lemma RouteUnordered(cost: Estimator, req: RoutingRequest, models: seq<ModelProfile>)
    requires OneModelPerRef(req.models) && multiset(models) == multiset(req.models)
    ensures SameAnswer(Route(cost, req), Route(cost, req.(models := models)))
  {
    hide Evaluate, Pick, SameAnswer, OneModelPerRef;
    var other := req.(models := models);
    var a, x := Judged(cost, req, req.models, true), Judged(cost, req, req.models, false);
    JudgedElsewhere(cost, req, other, models, true);
    JudgedElsewhere(cost, req, other, models, false);
    var b, y := Judged(cost, req, models, true), Judged(cost, req, models, false);
    JudgedPermuted(cost, req, req.models, models, true);
    JudgedPermuted(cost, req, req.models, models, false);
    JudgedOnePerRef(cost, req, true);
    if req.userOverride.None? {
      PickUnordered(a, b, x, y);
    } else {
      OverriddenUnordered(req.userOverride.value, a, b, x, y);
      var l, r := Overridden(req.userOverride.value, a, x), Overridden(req.userOverride.value, b, y);
      PickUnordered(l.0, r.0, l.1, r.1);
    }
  }

  lemma PositionUnordered(ref: ModelReference, a: seq<Candidate>, b: seq<Candidate>)
    requires multiset(a) == multiset(b) && OneCandidatePerRef(a)
    ensures Position(a, ref).Some? == Position(b, ref).Some?
    ensures Position(a, ref).Some? ==> a[Position(a, ref).value] == b[Position(b, ref).value]
  {
    hide Position;
    SameMembers(a, b);
    var i, j := Position(a, ref), Position(b, ref);
    assert i.Some? ==> a[i.value] in b;
    assert j.Some? ==> b[j.value] in a;
  }

  lemma OverriddenUnordered(ref: ModelReference, a: seq<Candidate>, b: seq<Candidate>, x: seq<Candidate>,
          y: seq<Candidate>)
    requires multiset(a) == multiset(b) && multiset(x) == multiset(y) && OneCandidatePerRef(a)
    ensures Overridden(ref, a, x).0 == Overridden(ref, b, y).0
    ensures multiset(Overridden(ref, a, x).1) == multiset(Overridden(ref, b, y).1)
    ensures OneCandidatePerRef(Overridden(ref, a, x).0)
  {
    hide Position, OneCandidatePerRef;
    PositionUnordered(ref, a, b);
    OnePerRefSmall(Overridden(ref, a, x).0);
    var i, j := Position(a, ref), Position(b, ref);
    if i.Some? {
      OthersMoved(x, a, i.value);
      OthersMoved(y, b, j.value);
    }
  }

  lemma OthersMoved(x: seq<Candidate>, a: seq<Candidate>, i: nat)
    requires i < |a|
    ensures multiset(x + a[..i] + a[i + 1..]) == multiset(x) + (multiset(a) - multiset{a[i]})
  {
    WithoutOne(a, i);
    assert x + a[..i] + a[i + 1..] == x + (a[..i] + a[i + 1..]);
  }

  lemma OnePerRefSmall(cs: seq<Candidate>)
    requires |cs| <= 1
    ensures OneCandidatePerRef(cs)
  {
  }

  /** Judging looks at the request's constraints, not at its list of models or its override. */
  predicate SameConstraints(req: RoutingRequest, other: RoutingRequest) {
    other == req.(models := other.models, userOverride := other.userOverride)
  }

  lemma {:induction false} JudgedElsewhere(cost: Estimator, req: RoutingRequest, other: RoutingRequest,
        models: seq<ModelProfile>, accepted: bool)
    requires SameConstraints(req, other)
    ensures Judged(cost, other, models, accepted) == Judged(cost, req, models, accepted)
  {
    if models != [] {
      JudgedElsewhere(cost, req, other, models[..|models| - 1], accepted);
    }
  }

  // ------------------------------------------------------------------------ fallbacks

  /** The request a fallback is decided by: its model alone, no override. */
  function Alone(req: RoutingRequest, m: ModelProfile): RoutingRequest {
    req.(models := [m], userOverride := None)
  }

  /** Model `k` answers fallback `f`. */
  predicate Serves(cost: Estimator, req: RoutingRequest, f: nat, k: nat) {
    && f < |req.fallbacks| && k < |req.models|
    && req.models[k].ref == req.fallbacks[f] && Eligible(cost, req, req.models[k])
  }

  lemma AloneChosen(cost: Estimator, req: RoutingRequest, m: ModelProfile)
    ensures Route(cost, Alone(req, m)).Chosen? <==> Eligible(cost, req, m)
    ensures Route(cost, Alone(req, m)).Chosen? ==> Route(cost, Alone(req, m)).decision.selected == m.ref
  {
    var alone := Alone(req, m);
    assert Eligible(cost, alone, m) == Eligible(cost, req, m);
    hide Eligible, FirstFailure, Score, SortStable;
    RouteBest(cost, alone);
    if Eligible(cost, alone, m) {
      assert Routable(cost, alone, None);
    }
  }

  /** `Router.DecideWithFallbacks`: a first answer stands; otherwise the first fallback with an
      eligible model is taken. Whatever is selected meets every hard constraint of the request
      as it was made, and without an override no fallback can be taken.
   */
  method DecideWithFallbacks(cost: Estimator, req: RoutingRequest) returns (r: Routed)
    ensures Route(cost, req).Chosen? || r.NoCompatibleModel? ==> r == Route(cost, req)
    ensures r.Chosen? && r != Route(cost, req) ==>
              exists f: nat, k: nat :: Serves(cost, req, f, k) && r == Route(cost, Alone(req, req.models[k]))
                        && forall g: nat, l: nat :: (g < f || (g == f && l < k)) ==> !Serves(cost, req, g, l)
    ensures r.NoCompatibleModel? ==> forall f: nat, k: nat :: !Serves(cost, req, f, k)
    ensures r.Chosen? ==> exists m :: m in req.models && Eligible(cost, req, m) && m.ref == r.decision.selected
    ensures req.userOverride.None? ==> r == Route(cost, req)
  {
    hide Route, Eligible;
    r := Decide(cost, req);
    RouteEligible(cost, req);
    if r.Chosen? {
      return;
    }
    for f := 0 to |req.fallbacks|
      invariant r == Route(cost, req)
      invariant forall g: nat, l: nat :: g < f ==> !Serves(cost, req, g, l)
    {
      for k := 0 to |req.models|
        invariant r == Route(cost, req)
        invariant forall l: nat :: l < k ==> !Serves(cost, req, f, l)
      {
        if req.models[k].ref == req.fallbacks[f] {
          var second := Decide(cost, req.(models := [req.models[k]], userOverride := None));
          AloneChosen(cost, req, req.models[k]);
          if second.Chosen? {
            assert Serves(cost, req, f, k);
            return second;
          }
        }
      }
    }
  }

  lemma RouteEligible(cost: Estimator, req: RoutingRequest)
    ensures Route(cost, req).Chosen? ==>
              exists m :: m in req.models && Eligible(cost, req, m) && m.ref == Route(cost, req).decision.selected
    ensures req.userOverride.None? ==>
              (Route(cost, req).Chosen? <==> exists m :: m in req.models && Eligible(cost, req, m))
  {
    hide Route, Eligible;
    if req.userOverride.None? {
      RouteBest(cost, req);
    } else {
      RouteOverride(cost, req);
    }
  }
}
