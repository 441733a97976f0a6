/** Which opportunities may become a pull request. */
module Policy {
  // ... and on what evidence.  Glob matching (`fnmatch`) is a function the context carries; nothing
  // is assumed about it.  Confidences and thresholds are reals.

  import opened Options
  import Text

  datatype Opportunity = Opportunity(
    id: string, category: string, tier: string, confidence: real,
    paths: seq<string>, blockedBy: seq<string>)

  // A risk-policy entry of the constitution: missing, not convertible to a number, or a number.
  datatype RiskValue = Absent | NotANumber | Number(value: real)

  datatype Constitution = Constitution(
    openQuestions: seq<Option<string>>,
    neverTouch: seq<string>,
    protectedModules: seq<seq<string>>,
    autonomous: seq<string>, assisted: seq<string>, advisory: seq<string>,
    riskPolicies: seq<RiskValue>)

  datatype Profile = Profile(accepted: set<string>, rejected: set<string>, reverted: set<string>)

  // What a planning call is evaluated against; `fallback` is the configured default threshold.
  datatype Context = Context(
    constitution: Constitution, profile: Profile,
    matches: (string, string) -> bool, fallback: real)

  datatype Mode = Conservative | Assisted | Autonomous

  datatype Reason =
    | OpenQuestions | Prerequisite | NeverTouch(path: string) | LowConfidence
    | CategoryNotAllowed | TierNotSupported | PreviouslyRejected
    | PathConflict | ConservativeMode | AssistedMode

  datatype Decision = Allowed | Blocked(reason: Reason)

  const TIER_1 := "tier_1_autonomous"
  const TIER_2 := "tier_2_assisted"
  const TIER_3 := "tier_3_advisory"

  predicate IsTier(t: string) {
    t == TIER_1 || t == TIER_2 || t == TIER_3
  }

  // A reverted category demands this much evidence.
  const REVERTED_THRESHOLD := 0.97

  function RMax(a: real, b: real): real {
    if a < b then b else a
  }

  function RMin(a: real, b: real): real {
    if b < a then b else a
  }

  function StricterThreshold(v: RiskValue, fallback: real): real {
    match v
    case Number(x) =>
      var t := if x > 1.0 then x / 100.0 else x;
      RMax(fallback, RMin(t, 1.0))
    case _ => fallback
  }

  // The first risk policy that is present decides.
  function ConstitutionThreshold(policies: seq<RiskValue>, fallback: real): real {
    if policies == [] then fallback
    else if policies[0].Absent? then ConstitutionThreshold(policies[1..], fallback)
    else StricterThreshold(policies[0], fallback)
  }

  // A constitution can only raise the configured threshold, and never beyond certainty.
  lemma {:induction false} ThresholdOnlyRises(policies: seq<RiskValue>, fallback: real)
    requires 0.0 <= fallback <= 1.0
    ensures fallback <= ConstitutionThreshold(policies, fallback) <= 1.0
  {
    if policies != [] && policies[0].Absent? {
      ThresholdOnlyRises(policies[1..], fallback);
    }
  }

  function EffectiveThreshold(ctx: Context, category: string): real {
    var t := ConstitutionThreshold(ctx.constitution.riskPolicies, ctx.fallback);
    if category != "" && category in ctx.profile.reverted then RMax(t, REVERTED_THRESHOLD) else t
  }

  predicate HasBlockingQuestion(questions: seq<Option<string>>) {
    exists i :: 0 <= i < |questions| && (questions[i].None? || questions[i].value == "blocking")
  }

  // Blockers the policy decides itself are not prerequisites.
  predicate IsPrerequisite(blocker: string) {
    var b := Text.Strip(blocker);
    && b != "" && b != "below_confidence_threshold"
    && !("protected_module:" <= b) && !("never_touch:" <= b)
  }

  predicate HasPrerequisite(blockers: seq<string>) {
    exists i :: 0 <= i < |blockers| && IsPrerequisite(blockers[i])
  }

  predicate MatchesAny(ctx: Context, path: string, patterns: seq<string>) {
    exists i :: 0 <= i < |patterns| && ctx.matches(path, patterns[i])
  }

  predicate IsProtectedPath(ctx: Context, path: string) {
    exists m :: 0 <= m < |ctx.constitution.protectedModules|
        && MatchesAny(ctx, path, ctx.constitution.protectedModules[m])
  }

  // The first never-touch path, if any.
  function NeverTouchPath(ctx: Context, paths: seq<string>): (r: Option<string>)
    ensures r.None? <==> forall p :: p in paths ==> !MatchesAny(ctx, p, ctx.constitution.neverTouch)
  {
    if paths == [] then None
    else if MatchesAny(ctx, paths[0], ctx.constitution.neverTouch) then Some(paths[0])
    else NeverTouchPath(ctx, paths[1..])
  }

  function CanonicalCategory(c: string): string {
    if c in {"dead_code_removal", "dead-code-removal", "dead code removal"} then "dead_code" else c
  }

  predicate Allows(fixes: seq<string>, category: string) {
    exists i :: 0 <= i < |fixes| && CanonicalCategory(fixes[i]) == category
  }

  function EvaluatePolicy(ctx: Context, o: Opportunity): Decision {
    if HasBlockingQuestion(ctx.constitution.openQuestions) then Blocked(OpenQuestions)
    else if HasPrerequisite(o.blockedBy) then Blocked(Prerequisite)
    else
      var never := NeverTouchPath(ctx, o.paths);
      if never.Some? then Blocked(NeverTouch(never.value))
      else if o.confidence < EffectiveThreshold(ctx, o.category) then Blocked(LowConfidence)
      else if Allows(ctx.constitution.advisory, o.category) then Allowed
      else if Allows(ctx.constitution.assisted, o.category) then Allowed
      else if !Allows(ctx.constitution.autonomous, o.category) then Blocked(CategoryNotAllowed)
      else if !IsTier(o.tier) then Blocked(TierNotSupported)
      else if o.category != "" && o.category in ctx.profile.rejected then Blocked(PreviouslyRejected)
      else Allowed
  }

  // Why autonomous execution is held back, if it is.
  function AutonomyBlock(mode: Mode): Decision {
    match mode
    case Autonomous => Allowed
    case Assisted => Blocked(AssistedMode)
    case Conservative => Blocked(ConservativeMode)
  }

  // The autonomy mode's say over a group whose first opportunity has tier `tier`.
  function AutomationDecision(mode: Mode, tier: string): Decision {
    if tier == TIER_2 && mode != Conservative then Allowed else AutonomyBlock(mode)
  }
}
