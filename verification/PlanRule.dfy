/** The planner's rule, read off the context. */
module PlanRule {
  // Which opportunities the policy lets through, which of them are kept, and what the mode permits,
  // each in terms of the constitution, the profile and the ranked opportunities alone.

  import opened Options
  import opened Policy
  import opened Grouping
  import opened Ranking
  import Text

  // ---- One opportunity -----------------------------------------------------------------------

  // A question without a severity blocks too.
  ghost predicate OpenQuestion(c: Constitution) {
    exists i {:trigger c.openQuestions[i]} ::
      0 <= i < |c.openQuestions| && c.openQuestions[i] in {None, Some("blocking")}
  }

  // Some blocker is neither blank nor one of the policy's own markers.
  ghost predicate WaitsForWork(o: Opportunity) {
    exists i {:trigger o.blockedBy[i]} ::
      && 0 <= i < |o.blockedBy|
      && var b := Text.Strip(o.blockedBy[i]);
         b !in {"", "below_confidence_threshold"} && !("protected_module:" <= b) && !("never_touch:" <= b)
  }

  ghost predicate OffLimits(ctx: Context, path: string) {
    exists pattern {:trigger ctx.matches(path, pattern)} ::
      pattern in ctx.constitution.neverTouch && ctx.matches(path, pattern)
  }

  ghost predicate TouchesOffLimits(ctx: Context, o: Opportunity) {
    exists p :: p in o.paths && OffLimits(ctx, p)
  }

  // The entry is the first that is present.
  ghost predicate Decides(policies: seq<RiskValue>, k: nat) {
    k < |policies| && policies[k] != Absent && forall i {:trigger policies[i]} :: 0 <= i < k ==> policies[i] == Absent
  }

  // What one entry asks for: a value above one is a percentage, and nothing asks for more than certainty.
  predicate Reaches(confidence: real, entry: RiskValue) {
    entry.Number? ==>
      if entry.value > 100.0 then confidence >= 1.0
      else if entry.value > 1.0 then 100.0 * confidence >= entry.value
      else confidence >= entry.value
  }

  ghost predicate ConfidentEnough(ctx: Context, category: string, confidence: real) {
    && confidence >= ctx.fallback
    && (forall k: nat {:trigger Decides(ctx.constitution.riskPolicies, k)} ::
          Decides(ctx.constitution.riskPolicies, k) ==> Reaches(confidence, ctx.constitution.riskPolicies[k]))
    && (category != "" && category in ctx.profile.reverted ==> confidence >= 0.97)
  }

  const SPELLINGS := {"dead_code_removal", "dead-code-removal", "dead code removal"}

  // Listed itself; the other spellings of dead code are listed as "dead_code" only.
  ghost predicate Listed(fixes: seq<string>, category: string) {
    category !in SPELLINGS
    && (category in fixes || (category == "dead_code" && exists f :: f in fixes && f in SPELLINGS))
  }

  ghost predicate ReviewedCategory(ctx: Context, category: string) {
    Listed(ctx.constitution.advisory, category) || Listed(ctx.constitution.assisted, category)
  }

  predicate SupportedTier(tier: string) {
    tier in {"tier_1_autonomous", "tier_2_assisted", "tier_3_advisory"}
  }

  predicate RejectedCategory(ctx: Context, category: string) {
    category != "" && category in ctx.profile.rejected
  }

  // Tier and rejections only matter to a category listed as autonomous alone.
  ghost predicate CategoryAllowed(ctx: Context, o: Opportunity) {
    || ReviewedCategory(ctx, o.category)
    || (Listed(ctx.constitution.autonomous, o.category) && SupportedTier(o.tier) && !RejectedCategory(ctx, o.category))
  }

  ghost predicate Plannable(ctx: Context, o: Opportunity) {
    && !OpenQuestion(ctx.constitution) && !WaitsForWork(o) && !TouchesOffLimits(ctx, o)
    && ConfidentEnough(ctx, o.category, o.confidence) && CategoryAllowed(ctx, o)
  }

  lemma {:induction false} AllowsIffListed(fixes: seq<string>, category: string)
    ensures Allows(fixes, category) <==> Listed(fixes, category)
  {
    if Listed(fixes, category) {
      if category in fixes {
        var i :| 0 <= i < |fixes| && fixes[i] == category;
        assert CanonicalCategory(fixes[i]) == category;
      } else {
        var f :| f in fixes && f in SPELLINGS;
        var i :| 0 <= i < |fixes| && fixes[i] == f;
        assert CanonicalCategory(fixes[i]) == category;
      }
    }
  }

  lemma {:induction false} ConstitutionReached(policies: seq<RiskValue>, fallback: real, confidence: real)
    ensures confidence >= ConstitutionThreshold(policies, fallback) <==>
              confidence >= fallback && forall k: nat {:trigger Decides(policies, k)} ::
                Decides(policies, k) ==> Reaches(confidence, policies[k])
  {
    if policies != [] && policies[0] == Absent {
      var rest := policies[1..];
      ConstitutionReached(rest, fallback, confidence);
      assert forall i {:trigger policies[i]} :: 0 < i < |policies| ==> policies[i] == rest[i - 1];
      forall k: nat | Decides(policies, k)
        ensures k > 0 && Decides(rest, k - 1)
      {
        assert forall i {:trigger rest[i]} :: 0 <= i < |rest| ==> rest[i] == policies[i + 1];
      }
      forall k: nat | Decides(rest, k)
        ensures Decides(policies, k + 1)
      {
      }
    } else if policies != [] {
      assert Decides(policies, 0);
      forall k: nat | Decides(policies, k)
        ensures k == 0
      {
        assert policies[0] != Absent;
      }
    }
  }

  // The effective threshold is the least confidence that is enough.
  lemma {:induction false} ThresholdReached(ctx: Context, category: string, confidence: real)
    ensures confidence >= EffectiveThreshold(ctx, category) <==> ConfidentEnough(ctx, category, confidence)
  {
    ConstitutionReached(ctx.constitution.riskPolicies, ctx.fallback, confidence);
    hide ConstitutionThreshold, Decides, Reaches;
  }

  lemma {:induction false} OffLimitsIff(ctx: Context, path: string)
    ensures MatchesAny(ctx, path, ctx.constitution.neverTouch) <==> OffLimits(ctx, path)
  {
    if OffLimits(ctx, path) {
      var pattern :| pattern in ctx.constitution.neverTouch && ctx.matches(path, pattern);
      var i :| 0 <= i < |ctx.constitution.neverTouch| && ctx.constitution.neverTouch[i] == pattern;
    }
  }

  lemma {:induction false} BlockersIff(ctx: Context, o: Opportunity)
    ensures HasBlockingQuestion(ctx.constitution.openQuestions) <==> OpenQuestion(ctx.constitution)
    ensures HasPrerequisite(o.blockedBy) <==> WaitsForWork(o)
    ensures NeverTouchPath(ctx, o.paths).Some? <==> TouchesOffLimits(ctx, o)
  {
    hide Text.Strip, NeverTouchPath;
    assert HasBlockingQuestion(ctx.constitution.openQuestions) <==> OpenQuestion(ctx.constitution);
    assert HasPrerequisite(o.blockedBy) <==> WaitsForWork(o);
    forall p
      ensures MatchesAny(ctx, p, ctx.constitution.neverTouch) <==> OffLimits(ctx, p)
    {
      OffLimitsIff(ctx, p);
    }
    hide MatchesAny, OffLimits;
  }

  // The policy lets through exactly the plannable opportunities.
  lemma {:induction false} PolicyAllowsPlannable(ctx: Context, o: Opportunity)
    ensures EvaluatePolicy(ctx, o).Allowed? <==> Plannable(ctx, o)
  {
    BlockersIff(ctx, o);
    ThresholdReached(ctx, o.category, o.confidence);
    AllowsIffListed(ctx.constitution.advisory, o.category);
    AllowsIffListed(ctx.constitution.assisted, o.category);
    AllowsIffListed(ctx.constitution.autonomous, o.category);
    hide OpenQuestion, WaitsForWork, TouchesOffLimits, ConfidentEnough, Listed, Allows, HasBlockingQuestion,
      HasPrerequisite, NeverTouchPath, EffectiveThreshold;
  }

  // The reason policy gives for blocking the opportunity is a true one.
  ghost predicate PolicyReason(ctx: Context, o: Opportunity, reason: Reason) {
    match reason
    case OpenQuestions => OpenQuestion(ctx.constitution)
    case Prerequisite => WaitsForWork(o)
    case NeverTouch(p) => p in o.paths && OffLimits(ctx, p)
    case LowConfidence => !ConfidentEnough(ctx, o.category, o.confidence)
    case CategoryNotAllowed =>
      !ReviewedCategory(ctx, o.category) && !Listed(ctx.constitution.autonomous, o.category)
    case TierNotSupported => !ReviewedCategory(ctx, o.category) && !SupportedTier(o.tier)
    case PreviouslyRejected => !ReviewedCategory(ctx, o.category) && RejectedCategory(ctx, o.category)
    case _ => false
  }

  lemma {:induction false} NeverTouchFound(ctx: Context, paths: seq<string>)
    ensures var r := NeverTouchPath(ctx, paths); r.Some? ==> r.value in paths && OffLimits(ctx, r.value)
  {
    if paths != [] {
      OffLimitsIff(ctx, paths[0]);
      NeverTouchFound(ctx, paths[1..]);
      hide MatchesAny, OffLimits;
    }
  }

  lemma {:induction false} PolicyReasonsHold(ctx: Context, o: Opportunity)
    requires EvaluatePolicy(ctx, o).Blocked?
    ensures PolicyReason(ctx, o, EvaluatePolicy(ctx, o).reason)
  {
    BlockersIff(ctx, o);
    NeverTouchFound(ctx, o.paths);
    ThresholdReached(ctx, o.category, o.confidence);
    AllowsIffListed(ctx.constitution.advisory, o.category);
    AllowsIffListed(ctx.constitution.assisted, o.category);
    AllowsIffListed(ctx.constitution.autonomous, o.category);
    hide OpenQuestion, WaitsForWork, TouchesOffLimits, ConfidentEnough, Listed, Allows, HasBlockingQuestion,
      HasPrerequisite, NeverTouchPath, EffectiveThreshold, OffLimits;
  }

  // ---- One among the ranked ------------------------------------------------------------------

  ghost predicate NoSharedPath(a: Opportunity, b: Opportunity) {
    forall p :: p in a.paths ==> p !in b.paths
  }

  // Not linked yet, plannable, and without a path of one kept before it.
  ghost predicate KeptAt(ctx: Context, existing: set<string>, ranked: seq<Opportunity>, k: nat)
    requires k < |ranked|
  {
    && ranked[k].id !in existing && Plannable(ctx, ranked[k])
    && forall j: nat {:trigger ranked[j]} :: j < k && KeptAt(ctx, existing, ranked, j) ==>
         NoSharedPath(ranked[j], ranked[k])
  }

  function PolicyBlocks(ctx: Context): Opportunity -> bool {
    (o: Opportunity) => EvaluatePolicy(ctx, o).Blocked?
  }

  ghost predicate KeptEarlier(ctx: Context, existing: set<string>, ranked: seq<Opportunity>, n: nat, o: Opportunity)
    requires n <= |ranked|
  {
    exists j: nat {:trigger ranked[j]} :: j < n && ranked[j] == o && KeptAt(ctx, existing, ranked, j)
  }

  lemma {:induction false} KeptAtStep(ctx: Context, existing: set<string>, ranked: seq<Opportunity>, k: nat)
    requires k < |ranked|
    requires forall o :: o in Kept(PolicyBlocks(ctx), existing, ranked[..k])
               <==> KeptEarlier(ctx, existing, ranked, k, o)
    ensures IsKept(PolicyBlocks(ctx), existing, Kept(PolicyBlocks(ctx), existing, ranked[..k]), ranked[k])
       <==> KeptAt(ctx, existing, ranked, k)
  {
    PolicyAllowsPlannable(ctx, ranked[k]);
    hide Kept, Plannable, EvaluatePolicy;
    var kept := Kept(PolicyBlocks(ctx), existing, ranked[..k]);
    forall m
      ensures SharesPath(m, ranked[k]) <==> !NoSharedPath(m, ranked[k])
    {
    }
    hide SharesPath, NoSharedPath;
    if Clashes(kept, ranked[k]) {
      var m :| m in kept && SharesPath(m, ranked[k]);
      assert KeptEarlier(ctx, existing, ranked, k, m);
    }
    forall j: nat | j < k && KeptAt(ctx, existing, ranked, j)
      ensures ranked[j] in kept
    {
      assert KeptEarlier(ctx, existing, ranked, k, ranked[j]);
    }
  }

  // What first fit keeps, by position.
  lemma {:induction false} KeptIff(ctx: Context, existing: set<string>, ranked: seq<Opportunity>, n: nat)
    requires n <= |ranked|
    ensures forall o :: o in Kept(PolicyBlocks(ctx), existing, ranked[..n])
              <==> KeptEarlier(ctx, existing, ranked, n, o)
  {
    if n > 0 {
      var k := n - 1;
      KeptIff(ctx, existing, ranked, k);
      KeptAtStep(ctx, existing, ranked, k);
      assert ranked[..n][..k] == ranked[..k] && ranked[..n][k] == ranked[k];
      hide KeptAt, IsKept;
    }
  }

  predicate ModeAllows(mode: Mode, tier: string) {
    mode == Autonomous || (mode == Assisted && tier == "tier_2_assisted")
  }

  // The decision on the plan of the k-th opportunity, with a true reason when it is blocked.
  ghost predicate DecisionFits(ctx: Context, mode: Mode, existing: set<string>, ranked: seq<Opportunity>, k: nat,
                               d: Decision)
    requires k < |ranked|
  {
    && (d.Allowed? <==> KeptAt(ctx, existing, ranked, k) && ModeAllows(mode, ranked[k].tier))
    && (d.Blocked? ==>
          match d.reason
          case PathConflict => Plannable(ctx, ranked[k]) && !KeptAt(ctx, existing, ranked, k)
          case ConservativeMode => mode == Conservative && KeptAt(ctx, existing, ranked, k)
          case AssistedMode => mode == Assisted && KeptAt(ctx, existing, ranked, k)
          case reason => PolicyReason(ctx, ranked[k], reason))
  }

  // What is held back for a path conflict alone loses to an opportunity that is kept, shares a path
  // with it, and is of an accepted category when it is not, or else at least as sure.
  lemma {:induction false} ConflictLosesToBetter(ctx: Context, existing: set<string>, ops: seq<Opportunity>, k: nat)
    returns (j: nat)
    requires var ranked := SortByRank(ctx.profile.accepted, ops);
             && k < |ranked| && ranked[k].id !in existing && Plannable(ctx, ranked[k])
             && !KeptAt(ctx, existing, ranked, k)
    ensures var ranked := SortByRank(ctx.profile.accepted, ops);
            && j < k < |ranked| && KeptAt(ctx, existing, ranked, j)
            && (exists p :: p in ranked[j].paths && p in ranked[k].paths)
            && (ranked[k].category in ctx.profile.accepted ==> ranked[j].category in ctx.profile.accepted)
            && ((ranked[j].category in ctx.profile.accepted && ranked[k].category !in ctx.profile.accepted)
                || ranked[j].confidence >= ranked[k].confidence)
  {
    var ranked := SortByRank(ctx.profile.accepted, ops);
    hide Plannable, SortByRank;
    j :| j < k && KeptAt(ctx, existing, ranked, j) && !NoSharedPath(ranked[j], ranked[k]);
    SortIsRanked(ctx.profile.accepted, ops);
    InKeyOrder(ctx.profile.accepted, ranked, j, k);
  }
}
