/** Who decides about one tool call of the chat loop: the capsule's policy, the
    operator's autonomy level, egress, the gate and the guardrail, in that
    order. */
module ToolPolicies {
  import opened Text

  /** What is decided about a call, in the order of strictness. */
  datatype Decision = Auto | Approval | Denied {
    function Rank(): nat {
      match this
      case Auto => 0
      case Approval => 1
      case Denied => 2
    }
  }

  function Tighten(current: Decision, other: Decision): (r: Decision)
    ensures r.Rank() >= current.Rank() && r.Rank() >= other.Rank() && r in {current, other}
  {
    if current.Rank() >= other.Rank() then current else other
  }

  // ---- the names the code lists ----

  /** The memory kit no capsule policy can switch off. */
  predicate IsKit(name: string) {
    name in ["memory_recall", "memory_save", "memory_proximity", "memory_get"]
  }

  predicate IsNetwork(name: string) {
    name in ["http_fetch", "document_ingest", "canvas_append", "web_search", "web_read",
             "packages_ensure", "os_packages_ensure"]
  }

  /** The tools of the guardrail's highest risk tier. */
  predicate IsTierThree(name: string) {
    name in ["packages_ensure", "os_packages_ensure", "code_execute", "shell_exec"]
  }

  const FORGET: string := "memory_forget"
  const RESEARCH: string := "research_report"
  const MEMORY_PREFIX: string := "memory_"

  // ---- the capsule's policy ----

  /** A JSON value where a list of names is expected. */
  datatype Listing = NoList | Names(names: seq<string>)

  /** A JSON value where the policy object is expected. */
  datatype PolicyJson = NoObject | Object(members: map<string, Listing>)

  /** The policy nested in the capsule's body; looking for it raises when the body has another shape. */
  datatype Nested = Misshapen | Found(policy: PolicyJson)

  datatype Capsule = Capsule(tenant: string, id: string, field: PolicyJson, body: Nested)

  datatype ToolPolicy = ToolPolicy(auto: seq<string>, approval: seq<string>, denied: seq<string>) {
    function Decide(name: string): Decision {
      if name in denied then Denied
      else if IsKit(name) || name in auto then Auto
      else Approval
    }
  }

  /** The operator's knobs; an absent or empty text knob is "". */
  datatype AgentIq = AgentIq(toolApproval: string, requireHitl: bool, egress: string)

  function Listed(members: map<string, Listing>, key: string): seq<string> {
    if key in members && members[key].Names? then members[key].names else []
  }

  function PolicyOf(members: map<string, Listing>): ToolPolicy {
    ToolPolicy(Listed(members, "auto_execute"), Listed(members, "approval_required"), Listed(members, "denied"))
  }

  /** The policy field when it is a non-empty object, else the one nested in the body. */
  function CapsulePolicy(capsule: Capsule): Option<ToolPolicy> {
    if capsule.field.Object? && capsule.field.members != map[] then Some(PolicyOf(capsule.field.members))
    else match capsule.body
      case Misshapen => None
      case Found(NoObject) => Some(PolicyOf(map[]))
      case Found(Object(members)) => Some(PolicyOf(members))
  }

  /** Whether the autonomy level asks for a human on everything. */
  predicate AllNeedHuman(iq: Option<AgentIq>) {
    iq.Some? && (iq.value.requireHitl || AsciiLower(iq.value.toolApproval) == "all")
  }

  function ApplyFloor(policy: ToolPolicy, iq: Option<AgentIq>): ToolPolicy {
    if AllNeedHuman(iq) then ToolPolicy([], policy.approval + policy.auto, policy.denied) else policy
  }

  predicate EgressPermitted(iq: Option<AgentIq>) {
    iq.Some? && AsciiLower(iq.value.egress) in ["whitelist", "expanded", "unrestricted"]
  }

  /** The floor never lowers the decision about any tool. */
  lemma {:induction false} FloorNeverLowers(policy: ToolPolicy, iq: Option<AgentIq>, name: string)
    ensures ApplyFloor(policy, iq).Decide(name).Rank() >= policy.Decide(name).Rank()
    ensures ApplyFloor(policy, iq).Decide(name) == Denied <==> policy.Decide(name) == Denied
  {
    hide IsKit, AllNeedHuman;
  }

  /** Applied twice, with the same knobs or with others in between, it decides as the stricter application alone. */
  lemma {:induction false} FloorIdempotent(
      policy: ToolPolicy, iq: Option<AgentIq>, other: Option<AgentIq>, name: string)
    ensures ApplyFloor(ApplyFloor(policy, iq), iq).Decide(name) == ApplyFloor(policy, iq).Decide(name)
    ensures ApplyFloor(ApplyFloor(policy, iq), other).Decide(name)
         == Tighten(ApplyFloor(policy, iq).Decide(name), ApplyFloor(policy, other).Decide(name))
  {
    hide IsKit, AllNeedHuman;
  }

  /** Even when everything should wait for a human, the memory kit does not. */
  lemma {:induction false} KitStaysAutomatic(policy: ToolPolicy, iq: Option<AgentIq>, name: string)
    requires AllNeedHuman(iq)
    ensures ApplyFloor(policy, iq).Decide(name) == Auto <==> IsKit(name) && name !in policy.denied
  {
    hide IsKit, AllNeedHuman;
  }

  // ---- the guardrail ----

  /** What the decision service answers. */
  datatype ClefOutcome = ClefDenied | ClefApproval | ClefOther

  /** The guardrail's surroundings: switched off, failing in whatever way, or answering. */
  datatype Clef = SwitchedOff | Failing | Answering(persisted: bool, outcome: ClefOutcome)

  function Choke(clef: Clef, name: string, current: Decision): (r: Decision)
    ensures r.Rank() >= current.Rank()
    ensures IsTierThree(name) ==> r != Auto
  {
    var tier3 := IsTierThree(name);
    match clef
    case SwitchedOff => Tighten(current, if tier3 then Approval else current)
    case Failing => Tighten(current, if tier3 then Denied else Approval)
    case Answering(persisted, outcome) =>
      if !persisted then Tighten(current, if tier3 then Denied else Approval)
      else match outcome
        case ClefDenied => Tighten(current, Denied)
        case ClefApproval => Tighten(current, Approval)
        case ClefOther => Tighten(current, if tier3 then Approval else Auto)
  }

  // ---- the one choke ----

  datatype GateAnswer = Allows | Refuses | GateRaises

  /** The query that lets `memory_forget` run on its own: the first non-empty of the three arguments. */
  function ForgetQuery(args: map<string, string>): string {
    var query, text, match_ := Argument(args, "query"), Argument(args, "text"), Argument(args, "match");
    if query != "" then query else if text != "" then text else match_
  }

  function Argument(args: map<string, string>, key: string): string {
    if key in args then args[key] else ""
  }

  predicate ForgetsByQuery(name: string, args: map<string, string>) {
    name == FORGET && |Strip(ForgetQuery(args))| >= 3
  }

  /** `decide_and_authorize_tool`; a missing subject and every exception deny. */
  function Authorize(
      subject: bool, capsule: Capsule, iq: Option<AgentIq>, name: string, args: map<string, string>,
      gate: GateAnswer, clef: Clef): Decision {
    if !subject then Denied
    else match CapsulePolicy(capsule)
      case None => Denied
      case Some(policy) =>
        var first := ApplyFloor(policy, iq).Decide(name);
        if first == Denied then Denied
        else
          var decision := if first == Approval && ForgetsByQuery(name, args) then Auto else first;
          if IsNetwork(name) && !EgressPermitted(iq) then Denied
          else if gate != Allows then Denied
          else Choke(clef, name, decision)
  }

  /** What no later layer can buy back. */
  predicate Unforbidden(
      subject: bool, capsule: Capsule, iq: Option<AgentIq>, name: string, gate: GateAnswer) {
    && subject && gate == Allows
    && CapsulePolicy(capsule).Some? && name !in CapsulePolicy(capsule).value.denied
    && (IsNetwork(name) ==> EgressPermitted(iq))
  }

  /** The grounds on which a call may run without a human. */
  predicate MayRunAlone(capsule: Capsule, iq: Option<AgentIq>, name: string, args: map<string, string>) {
    && CapsulePolicy(capsule).Some?
    && (|| IsKit(name)
        || (name in CapsulePolicy(capsule).value.auto && !AllNeedHuman(iq))
        || ForgetsByQuery(name, args))
  }

  /** The guardrail has no objection: switched off, or a recorded answer that neither denies nor asks. */
  predicate NoObjection(clef: Clef) {
    clef == SwitchedOff || (clef.Answering? && clef.persisted && clef.outcome == ClefOther)
  }

  /** The guardrail denies outright. */
  predicate Objects(clef: Clef, name: string) {
    match clef
    case SwitchedOff => false
    case Failing => IsTierThree(name)
    case Answering(persisted, outcome) => if persisted then outcome == ClefDenied else IsTierThree(name)
  }

  /** The choke, characterized: a call runs alone exactly when nothing forbids it, there are grounds to run
      alone, the guardrail has no objection and the tool is not of the highest tier; it is refused exactly
      when something forbids it or the guardrail denies. */
  lemma {:induction false} AuthorizeExactly(
      subject: bool, capsule: Capsule, iq: Option<AgentIq>, name: string, args: map<string, string>,
      gate: GateAnswer, clef: Clef)
    ensures (Authorize(subject, capsule, iq, name, args, gate, clef) == Auto)
        <==> (Unforbidden(subject, capsule, iq, name, gate) && MayRunAlone(capsule, iq, name, args)
              && NoObjection(clef) && !IsTierThree(name))
    ensures (Authorize(subject, capsule, iq, name, args, gate, clef) == Denied)
        <==> (!Unforbidden(subject, capsule, iq, name, gate) || Objects(clef, name))
  {
    hide IsKit, IsNetwork, IsTierThree, ForgetsByQuery, EgressPermitted, AllNeedHuman, CapsulePolicy;
  }

  /** The choke never decides below the capsule's own policy, save for a `memory_forget` with a query. */
  lemma {:induction false} AuthorizeNeverBelowPolicy(
      subject: bool, capsule: Capsule, iq: Option<AgentIq>, name: string, args: map<string, string>,
      gate: GateAnswer, clef: Clef)
    requires CapsulePolicy(capsule).Some? && !ForgetsByQuery(name, args)
    ensures Authorize(subject, capsule, iq, name, args, gate, clef).Rank()
         >= CapsulePolicy(capsule).value.Decide(name).Rank()
  {
    FloorNeverLowers(CapsulePolicy(capsule).value, iq, name);
    hide IsKit, IsNetwork, IsTierThree, ForgetsByQuery, EgressPermitted, ApplyFloor, CapsulePolicy;
  }

  // ---- identity ----

  predicate IsPlaceholder(tenant: string) {
    AsciiLower(Strip(tenant)) in ["", "default", "standalone", "none"]
  }

  predicate IsMemoryTool(name: string) { MEMORY_PREFIX <= name }

  /** The arguments the tool really gets: its tenant comes from the capsule, never from the model. */
  function Bind(capsule: Capsule, name: string, args: map<string, string>): map<string, string> {
    if IsMemoryTool(name) then
      if capsule.tenant != "" then args["tenant_id" := capsule.tenant]
      else if IsPlaceholder(Argument(args, "tenant_id")) then args["tenant_id" := ""]
      else args
    else if name == RESEARCH then args["tenant_id" := capsule.tenant]["capsule_id" := capsule.id]
    else args
  }

  /** A memory tool gets the capsule's tenant whatever the model wrote, and with a tenant-less capsule never
      a placeholder; the research tool gets the capsule's identity. */
  lemma {:induction false} BindsIdentity(capsule: Capsule, name: string, args: map<string, string>)
    ensures var bound := Bind(capsule, name, args);
      && (IsMemoryTool(name) && capsule.tenant != "" ==> Argument(bound, "tenant_id") == capsule.tenant)
      && (IsMemoryTool(name) && capsule.tenant == "" ==>
            Argument(bound, "tenant_id") == "" || !IsPlaceholder(Argument(bound, "tenant_id")))
      && (name == RESEARCH ==>
            Argument(bound, "tenant_id") == capsule.tenant && Argument(bound, "capsule_id") == capsule.id)
  {
    assert RESEARCH[0] != MEMORY_PREFIX[0];
    hide IsPlaceholder;
  }

  /** The rest of the arguments stay, the query of a `memory_forget` among them. */
  lemma {:induction false} BindsNothingElse(capsule: Capsule, name: string, args: map<string, string>, key: string)
    requires key != "tenant_id" && key != "capsule_id"
    ensures Argument(Bind(capsule, name, args), key) == Argument(args, key)
  {
    hide IsPlaceholder, IsMemoryTool, RESEARCH;
  }
}
