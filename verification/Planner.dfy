/** One planning call. */
module Planner {
  // Rank, group, decide, name and record the maintenance pull requests of a session.

  import opened Options
  import opened Policy
  import opened Grouping
  import opened Ranking
  import opened PlanRule
  import opened BranchNames
  import Gate

  datatype Plan = Plan(
    branch: string, category: string, tier: string, confidence: real, threshold: real,
    paths: seq<string>, decision: Decision, opportunities: seq<string>)

  datatype Outcome = Planned(plans: seq<Plan>) | DuplicateOpportunity

  // The first member policy blocks decides for the group.
  function GroupDecision(ctx: Context, g: Group): (d: Decision)
    ensures d.Allowed? <==> forall o :: o in g ==> EvaluatePolicy(ctx, o).Allowed?
  {
    if g == [] then Allowed
    else if EvaluatePolicy(ctx, g[0]).Blocked? then EvaluatePolicy(ctx, g[0])
    else GroupDecision(ctx, g[1..])
  }

  function FinalDecision(ctx: Context, mode: Mode, forced: set<string>, g: Group): Decision
    requires g != []
  {
    var decision := if g[0].id in forced then Blocked(PathConflict) else GroupDecision(ctx, g);
    if decision.Allowed? then AutomationDecision(mode, g[0].tier) else decision
  }

  predicate TouchesProtected(ctx: Context, g: Group) {
    exists o, p :: o in g && p in o.paths && IsProtectedPath(ctx, p)
  }

  // Protected paths force the advisory tier.
  function PlanTier(ctx: Context, g: Group): string
    requires g != []
  {
    if TouchesProtected(ctx, g) then TIER_3 else g[0].tier
  }

  function MinConfidence(g: Group): (r: real)
    requires g != []
    ensures forall o :: o in g ==> r <= o.confidence
    ensures exists o :: o in g && r == o.confidence
  {
    if |g| == 1 then g[0].confidence else RMin(g[0].confidence, MinConfidence(g[1..]))
  }

  function MaxThreshold(ctx: Context, g: Group): (r: real)
    requires g != []
    ensures forall o :: o in g ==> EffectiveThreshold(ctx, o.category) <= r
    ensures exists o :: o in g && r == EffectiveThreshold(ctx, o.category)
  {
    var t := EffectiveThreshold(ctx, g[0].category);
    if |g| == 1 then t else RMax(t, MaxThreshold(ctx, g[1..]))
  }

  // The values in order of first appearance.
  function Unique(values: seq<string>): (r: seq<string>)
    ensures forall v :: v in r <==> v in values
    ensures forall i, j :: 0 <= i < j < |r| ==> r[i] != r[j]
  {
    if values == [] then []
    else
      var rest := Unique(values[..|values| - 1]);
      if values[|values| - 1] in rest then rest else rest + [values[|values| - 1]]
  }

  function AllPaths(g: Group): (r: seq<string>)
    ensures forall p :: p in r <==> exists o :: o in g && p in o.paths
  {
    if g == [] then [] else g[0].paths + AllPaths(g[1..])
  }

  function Ids(g: Group): (r: seq<string>)
    ensures |r| == |g| && forall i :: 0 <= i < |g| ==> r[i] == g[i].id
  {
    if g == [] then [] else Ids(g[..|g| - 1]) + [g[|g| - 1].id]
  }

  function PlanFor(ctx: Context, mode: Mode, forced: set<string>, g: Group, branch: string): Plan
    requires g != []
  {
    Plan(branch, g[0].category, PlanTier(ctx, g), MinConfidence(g), MaxThreshold(ctx, g),
         Unique(AllPaths(g)), FinalDecision(ctx, mode, forced, g), Ids(g))
  }

  // ---- What an unblocked plan guarantees -----------------------------------------------------

  ghost predicate FromPlanning(ctx: Context, existing: set<string>, ops: seq<Opportunity>, g: Group) {
    FreshDistinct(existing, ops) && g in Placed(PolicyBlocks(ctx), existing, ops).groups
  }

  lemma {:induction false} UnblockedGroup(ctx: Context, mode: Mode, existing: set<string>, ops: seq<Opportunity>,
        g: Group)
    requires FromPlanning(ctx, existing, ops, g)
    requires g != [] && FinalDecision(ctx, mode, Placed(PolicyBlocks(ctx), existing, ops).forced, g).Allowed?
    ensures !GroupBlocked(PolicyBlocks(ctx), Placed(PolicyBlocks(ctx), existing, ops).forced, g)
    ensures forall o :: o in g ==> InClass(o, g[0].category, g[0].tier) && EvaluatePolicy(ctx, o).Allowed?
  {
    PlacedChunked(PolicyBlocks(ctx), existing, ops);
  }

  // Its weakest opportunity still meets the strictest threshold in the group.
  lemma {:induction false} UnblockedMeetsThreshold(ctx: Context, mode: Mode, existing: set<string>,
        ops: seq<Opportunity>, g: Group)
    requires FromPlanning(ctx, existing, ops, g)
    requires g != [] && FinalDecision(ctx, mode, Placed(PolicyBlocks(ctx), existing, ops).forced, g).Allowed?
    ensures MinConfidence(g) >= MaxThreshold(ctx, g)
  {
    var t := EffectiveThreshold(ctx, g[0].category);
    forall o | o in g
      ensures o.confidence >= t && EffectiveThreshold(ctx, o.category) == t
    {
      UnblockedGroup(ctx, mode, existing, ops, g);
      AllowedMeetsThreshold(ctx, o);
    }
  }

  lemma {:induction false} AllowedMeetsThreshold(ctx: Context, o: Opportunity)
    requires EvaluatePolicy(ctx, o).Allowed?
    ensures o.confidence >= EffectiveThreshold(ctx, o.category)
  {
  }

  // None of its paths is a never-touch path, and a protected path puts it in the advisory tier.
  lemma {:induction false} UnblockedPathsAllowed(ctx: Context, mode: Mode, existing: set<string>,
        ops: seq<Opportunity>, g: Group, p: string)
    requires FromPlanning(ctx, existing, ops, g)
    requires g != [] && FinalDecision(ctx, mode, Placed(PolicyBlocks(ctx), existing, ops).forced, g).Allowed?
    requires p in AllPaths(g)
    ensures !MatchesAny(ctx, p, ctx.constitution.neverTouch)
    ensures IsProtectedPath(ctx, p) ==> PlanTier(ctx, g) == TIER_3
  {
    UnblockedGroup(ctx, mode, existing, ops, g);
    var o :| o in g && p in o.paths;
    assert EvaluatePolicy(ctx, o).Allowed?;
  }

  lemma {:induction false} FlattenCounts(gs: seq<Group>, i: nat, o: Opportunity)
    requires i < |gs| && o in gs[i]
    ensures multiset(Flatten(gs))[o] >= 1
    decreases |gs|
  {
    if i < |gs| - 1 {
      FlattenCounts(gs[..|gs| - 1], i, o);
    } else {
      assert o in multiset(gs[i]);
    }
  }

  lemma {:induction false} FlattenCountsTwice(gs: seq<Group>, i: nat, j: nat, o: Opportunity)
    requires i < j < |gs| && o in gs[i] && o in gs[j]
    ensures multiset(Flatten(gs))[o] >= 2
    decreases |gs|
  {
    if j < |gs| - 1 {
      FlattenCountsTwice(gs[..|gs| - 1], i, j, o);
    } else {
      FlattenCounts(gs[..|gs| - 1], i, o);
      assert o in multiset(gs[j]);
    }
  }

  // No opportunity is in two groups.
  lemma {:induction false} InOneGroup(blocked: Opportunity -> bool, existing: set<string>, ops: seq<Opportunity>,
        i: nat, j: nat, o: Opportunity)
    requires FreshDistinct(existing, ops)
    requires var gs := Placed(blocked, existing, ops).groups; i < j < |gs| && o in gs[i]
    ensures o !in Placed(blocked, existing, ops).groups[j]
  {
    var gs := Placed(blocked, existing, ops).groups;
    if o in gs[j] {
      EveryFreshLandsOnce(blocked, existing, ops);
      FlattenCountsTwice(gs, i, j, o);
      FreshDistinctIsDistinct(existing, ops);
      var k, l := CountedTwice(Fresh(existing, ops), o);
    }
  }

  // Different unblocked plans never change the same path.
  lemma {:induction false} UnblockedPlansDisjoint(ctx: Context, mode: Mode, existing: set<string>,
        ops: seq<Opportunity>, g: Group, h: Group, p: string)
    requires FromPlanning(ctx, existing, ops, g) && FromPlanning(ctx, existing, ops, h) && g != h
    requires g != [] && FinalDecision(ctx, mode, Placed(PolicyBlocks(ctx), existing, ops).forced, g).Allowed?
    requires h != [] && FinalDecision(ctx, mode, Placed(PolicyBlocks(ctx), existing, ops).forced, h).Allowed?
    requires p in AllPaths(g)
    ensures p !in AllPaths(h)
  {
    if p in AllPaths(h) {
      var a :| a in g && p in a.paths;
      var b :| b in h && p in b.paths;
      assert SharesPath(a, b);
      hide *;
      if a == b {
        InAnotherGroup(ctx, existing, ops, g, h, a);
      } else {
        UnblockedGroup(ctx, mode, existing, ops, g);
        UnblockedGroup(ctx, mode, existing, ops, h);
        PlannedDisjoint(ctx, existing, ops, g, h, a, b);
      }
    }
  }

  lemma {:induction false} InAnotherGroup(ctx: Context, existing: set<string>, ops: seq<Opportunity>, g: Group,
        h: Group, o: Opportunity)
    requires FromPlanning(ctx, existing, ops, g) && FromPlanning(ctx, existing, ops, h) && g != h && o in g
    ensures o !in h
  {
    hide Placed;
    var gs := Placed(PolicyBlocks(ctx), existing, ops).groups;
    var i :| 0 <= i < |gs| && gs[i] == g;
    var j :| 0 <= j < |gs| && gs[j] == h;
    if o in h {
      InOneGroup(PolicyBlocks(ctx), existing, ops, if i < j then i else j, if i < j then j else i, o);
    }
  }

  lemma {:induction false} PlannedDisjoint(ctx: Context, existing: set<string>, ops: seq<Opportunity>, g: Group,
        h: Group, a: Opportunity, b: Opportunity)
    requires FromPlanning(ctx, existing, ops, g) && FromPlanning(ctx, existing, ops, h) && a in g && b in h && a != b
    requires !GroupBlocked(PolicyBlocks(ctx), Placed(PolicyBlocks(ctx), existing, ops).forced, g)
    requires !GroupBlocked(PolicyBlocks(ctx), Placed(PolicyBlocks(ctx), existing, ops).forced, h)
    ensures !SharesPath(a, b)
  {
    hide Placed, GroupBlocked, SharesPath;
    UnblockedGroupsDisjoint(PolicyBlocks(ctx), existing, ops, g, h, a, b);
  }

  // The stored row of a new plan, once it is approved.
  function ApprovedRow(plan: Plan, createdAt: int): Gate.PlanRow {
    Gate.PlanRow(plan.decision.Blocked?, Gate.Approved, Gate.Pending, plan.tier, plan.confidence, plan.threshold,
        createdAt)
  }

  // An approved plan can run exactly when planning left it unblocked and its tier is one of the
  // three.  Planning lets other tiers through for advisory and assisted categories.
  lemma {:induction false} ApprovedPlanRuns(ctx: Context, mode: Mode, existing: set<string>, ops: seq<Opportunity>,
        g: Group, branch: string, repo: Gate.Repo, createdAt: int, now: int)
    requires FromPlanning(ctx, existing, ops, g) && g != [] && Gate.IsActive(repo)
    ensures var plan := PlanFor(ctx, mode, Placed(PolicyBlocks(ctx), existing, ops).forced, g, branch);
            Gate.Executable(ApprovedRow(plan, createdAt), repo, Some(mode), now) <==>
              plan.decision.Allowed? && (IsTier(g[0].tier) || TouchesProtected(ctx, g))
  {
    var forced := Placed(PolicyBlocks(ctx), existing, ops).forced;
    if FinalDecision(ctx, mode, forced, g).Allowed? { UnblockedMeetsThreshold(ctx, mode, existing, ops, g); }
    hide Placed, FromPlanning;
    RunsWhenItMeets(ctx, mode, forced, g, branch, repo, createdAt, now);
  }

  lemma {:induction false} RunsWhenItMeets(ctx: Context, mode: Mode, forced: set<string>, g: Group, branch: string,
        repo: Gate.Repo, createdAt: int, now: int)
    requires g != [] && Gate.IsActive(repo)
    requires FinalDecision(ctx, mode, forced, g).Allowed? ==> MinConfidence(g) >= MaxThreshold(ctx, g)
    ensures var plan := PlanFor(ctx, mode, forced, g, branch);
            Gate.Executable(ApprovedRow(plan, createdAt), repo, Some(mode), now) <==>
              plan.decision.Allowed? && (IsTier(g[0].tier) || TouchesProtected(ctx, g))
  {
    hide GroupDecision, TouchesProtected, MinConfidence, MaxThreshold, Unique, AllPaths, Ids;
    assert TIER_1 != TIER_2 && TIER_1 != TIER_3 && TIER_2 != TIER_3;
  }

  // Nothing is off limits, and documentation is advisory.
  function DocsAdvisory(): Context {
    Context(Constitution([], [], [], [], [], ["docs"], []), Profile({}, {}, {}), (path, pattern) => false, 0.8)
  }

  const UNKNOWN_TIER := Opportunity("o1", "docs", "unknown", 0.9, ["README.md"], [])

  // Such a plan exists: an advisory documentation opportunity whose tier is none of the three stays
  // unblocked in autonomous mode, and once approved it cannot run.
  lemma {:induction false} UnsupportedTierIsPlanned(repo: Gate.Repo, branch: string, createdAt: int, now: int)
    requires Gate.IsActive(repo)
    ensures var st := Placed(PolicyBlocks(DocsAdvisory()), {}, [UNKNOWN_TIER]);
            && st.groups == [[UNKNOWN_TIER]]
            && var plan := PlanFor(DocsAdvisory(), Autonomous, st.forced, [UNKNOWN_TIER], branch);
               && plan.decision.Allowed? && plan.tier == "unknown"
               && !Gate.Executable(ApprovedRow(plan, createdAt), repo, Some(Autonomous), now)
  {
    var ctx, o := DocsAdvisory(), UNKNOWN_TIER;
    UnknownTierAllowed();
    assert [o][..0] == [];
    assert Placed(PolicyBlocks(ctx), {}, [o][..0]) == State([], {});
    hide EvaluatePolicy;
    assert !Conflicts(PolicyBlocks(ctx), State([], {}), o);
    assert GroupDecision(ctx, [o]).Allowed?;
    assert !TouchesProtected(ctx, [o]);
  }

  lemma {:induction false} UnknownTierAllowed()
    ensures EvaluatePolicy(DocsAdvisory(), UNKNOWN_TIER).Allowed?
  {
    var ctx, o := DocsAdvisory(), UNKNOWN_TIER;
    assert !MatchesAny(ctx, o.paths[0], ctx.constitution.neverTouch);
    assert o.paths[1..] == [];
    assert CanonicalCategory(ctx.constitution.advisory[0]) == "docs";
    assert Allows(ctx.constitution.advisory, "docs");
  }

  // ---- Recording the plans -------------------------------------------------------------------

  ghost predicate IsPlanFor(ctx: Context, mode: Mode, forced: set<string>, g: Group, plan: Plan) {
    g != [] && plan == PlanFor(ctx, mode, forced, g, plan.branch)
  }

  ghost predicate PlansFor(ctx: Context, mode: Mode, forced: set<string>, groups: seq<Group>, plans: seq<Plan>) {
    && |plans| == |groups|
    && forall i {:trigger IsPlanFor(ctx, mode, forced, groups[i], plans[i])} ::
         0 <= i < |plans| ==> IsPlanFor(ctx, mode, forced, groups[i], plans[i])
  }

  ghost predicate FreshBranches(used: set<string>, plans: seq<Plan>) {
    && (forall i :: 0 <= i < |plans| ==> plans[i].branch !in used)
    && (forall i, j :: 0 <= i < j < |plans| ==> plans[i].branch != plans[j].branch)
  }

  lemma {:induction false} AppendPlan(ctx: Context, mode: Mode, forced: set<string>, groups: seq<Group>,
        plans: seq<Plan>, g: Group, plan: Plan)
    requires PlansFor(ctx, mode, forced, groups, plans) && IsPlanFor(ctx, mode, forced, g, plan)
    ensures PlansFor(ctx, mode, forced, groups + [g], plans + [plan])
  {
    var gs, ps := groups + [g], plans + [plan];
    forall i | 0 <= i < |ps|
      ensures IsPlanFor(ctx, mode, forced, gs[i], ps[i])
    {
      if i < |plans| { assert IsPlanFor(ctx, mode, forced, groups[i], plans[i]); }
    }
  }

  lemma {:induction false} PlanIsFor(ctx: Context, mode: Mode, forced: set<string>, g: Group, branch: string)
    requires g != []
    ensures IsPlanFor(ctx, mode, forced, g, PlanFor(ctx, mode, forced, g, branch))
    ensures PlanFor(ctx, mode, forced, g, branch).branch == branch
  {
  }

  // The branch names in use: those the session had and those of the plans made so far.
  ghost predicate Taken(used: set<string>, plans: seq<Plan>, taken: set<string>) {
    && used <= taken && |taken| <= |used| + |plans|
    && forall k {:trigger plans[k]} :: 0 <= k < |plans| ==> plans[k].branch in taken
  }

  // Every branch name fits its column.
  ghost predicate ShortBranches(plans: seq<Plan>) {
    forall i {:trigger plans[i]} :: 0 <= i < |plans| ==> |plans[i].branch| <= NAME_LIMIT
  }

  lemma {:induction false} OneMoreBranch(used: set<string>, plans: seq<Plan>, taken: set<string>, plan: Plan)
    requires FreshBranches(used, plans) && Taken(used, plans, taken) && plan.branch !in taken
    ensures FreshBranches(used, plans + [plan]) && Taken(used, plans + [plan], taken + {plan.branch})
    ensures ShortBranches(plans) && |plan.branch| <= NAME_LIMIT ==> ShortBranches(plans + [plan])
  {
  }

  lemma {:induction false} NoPlans(ctx: Context, mode: Mode, forced: set<string>, used: set<string>)
    ensures PlansFor(ctx, mode, forced, [], [])
    ensures FreshBranches(used, []) && Taken(used, [], used) && ShortBranches([])
  {
  }

  // What a group's branch name is made from: how a text is turned into a name part, the titles of
  // the opportunities, and the session's suffix.
  datatype Naming = Naming(slug: string -> string, title: Opportunity -> string, session: string)

  function BaseName(naming: Naming, g: Group): (r: string)
    requires g != []
    ensures |r| <= BASE_LIMIT && BASE_LIMIT <= NAME_LIMIT
  {
    BaseBranchName(naming.slug, g[0].category, naming.title(g[0]), naming.session)
  }

  // Fewer names than counters that fit beside nothing else.
  ghost predicate RoomForNames(used: set<string>, n: nat) {
    |used| + n + 2 < Power10(NAME_LIMIT - 1)
  }

  lemma {:induction false} RoomLeft(used: set<string>, n: nat, plans: seq<Plan>, taken: set<string>)
    requires RoomForNames(used, n) && Taken(used, plans, taken) && |plans| <= n
    ensures |taken| + 2 < Power10(NAME_LIMIT - 1)
  {
    hide Power10;
  }

  method CreatePlans(ctx: Context, mode: Mode, st: State, used: set<string>, naming: Naming)
    returns (plans: seq<Plan>)
    requires [] !in st.groups
    ensures PlansFor(ctx, mode, st.forced, st.groups, plans) && FreshBranches(used, plans)
    ensures RoomForNames(used, |st.groups|) ==> ShortBranches(plans)
  {
    hide *;
    plans := [];
    var taken := used;
    NoPlans(ctx, mode, st.forced, used);
    assert st.groups[..0] == [];
    for i := 0 to |st.groups|
      invariant |plans| == i && PlansFor(ctx, mode, st.forced, st.groups[..i], plans)
      invariant FreshBranches(used, plans) && Taken(used, plans, taken)
      invariant RoomForNames(used, |st.groups|) ==> ShortBranches(plans)
    {
      var g := st.groups[i];
      assert g in st.groups;
      var branch, _ := UniqueBranchName(BaseName(naming, g), taken);
      if RoomForNames(used, |st.groups|) { RoomLeft(used, |st.groups|, plans, taken); }
      var plan := PlanFor(ctx, mode, st.forced, g, branch);
      PlanIsFor(ctx, mode, st.forced, g, branch);
      AppendPlan(ctx, mode, st.forced, st.groups[..i], plans, g, plan);
      assert st.groups[..i] + [g] == st.groups[..i + 1];
      OneMoreBranch(used, plans, taken, plan);
      taken := taken + {branch};
      plans := plans + [plan];
    }
    assert st.groups[..|st.groups|] == st.groups;
  }

  // Every opportunity is linked to its plan; the database refuses a second link for the same id.
  method LinkOpportunities(groups: seq<Group>) returns (ok: bool)
    ensures ok <==> DistinctIds(Flatten(groups))
  {
    var linked: set<string> := {};
    for k := 0 to |groups|
      invariant DistinctIds(Flatten(groups[..k]))
      invariant forall id :: id in linked <==> exists o :: o in Flatten(groups[..k]) && o.id == id
    {
      assert groups[..k + 1][..k] == groups[..k];
      ghost var before := Flatten(groups[..k]);
      for a := 0 to |groups[k]|
        invariant DistinctIds(before + groups[k][..a])
        invariant forall id :: id in linked <==> exists o :: o in before + groups[k][..a] && o.id == id
      {
        var o := groups[k][a];
        assert before + groups[k][..a + 1] == before + groups[k][..a] + [o];
        if o.id in linked {
          DuplicateStays(groups, k, a, before);
          return false;
        }
        linked := linked + {o.id};
      }
      assert groups[k][..|groups[k]|] == groups[k];
    }
    assert groups[..|groups|] == groups;
    ok := true;
  }

  lemma {:induction false} FlattenPrefix(groups: seq<Group>, k: nat)
    requires k <= |groups|
    ensures Flatten(groups[..k]) <= Flatten(groups)
    decreases |groups| - k
  {
    if k < |groups| {
      assert groups[..k + 1][..k] == groups[..k];
      FlattenPrefix(groups, k + 1);
    } else {
      assert groups[..k] == groups;
    }
  }

  lemma {:induction false} DuplicateStays(groups: seq<Group>, k: nat, a: nat, before: seq<Opportunity>)
    requires k < |groups| && a < |groups[k]| && before == Flatten(groups[..k])
    requires exists o :: o in before + groups[k][..a] && o.id == groups[k][a].id
    ensures !DistinctIds(Flatten(groups))
  {
    var all := Flatten(groups);
    assert groups[..k + 1][..k] == groups[..k];
    assert Flatten(groups[..k + 1]) == before + groups[k];
    FlattenPrefix(groups, k + 1);
    var o :| o in before + groups[k][..a] && o.id == groups[k][a].id;
    var i :| 0 <= i < |before| + a && (before + groups[k][..a])[i] == o;
    assert all[i] == o && all[|before| + a] == groups[k][a];
  }

  lemma {:induction false} FreshDistinctIsDistinct(existing: set<string>, ops: seq<Opportunity>)
    ensures FreshDistinct(existing, ops) <==> DistinctIds(Fresh(existing, ops))
  {
    if ops != [] {
      var init, o := ops[..|ops| - 1], ops[|ops| - 1];
      FreshDistinctIsDistinct(existing, init);
      assert ops == init + [o];
      FreshDistinctStep(existing, init, o);
      assert Fresh(existing, ops) == if o.id in existing then Fresh(existing, init) else Fresh(existing, init) + [o];
      if o.id !in existing {
        LastDistinct(Fresh(existing, init), o);
        forall a
          ensures a in Fresh(existing, init) <==> a in init && a.id !in existing
        {
          FreshMember(existing, init, a);
        }
      }
    }
  }

  lemma {:induction false} FreshDistinctStep(existing: set<string>, init: seq<Opportunity>, o: Opportunity)
    ensures FreshDistinct(existing, init + [o]) <==>
              FreshDistinct(existing, init) && (o.id in existing || forall a :: a in init && a.id !in existing ==>
                  a.id != o.id)
  {
    var ops := init + [o];
    if FreshDistinct(existing, ops) {
      forall i, j | 0 <= i < j < |init| && init[i].id !in existing && init[j].id !in existing
        ensures init[i].id != init[j].id
      {
        assert ops[i] == init[i] && ops[j] == init[j];
      }
      if o.id !in existing {
        forall i | 0 <= i < |init| && init[i].id !in existing
          ensures init[i].id != o.id
        {
          assert ops[i] == init[i] && ops[|init|] == o;
        }
      }
    }
  }

  lemma {:induction false} LastDistinct(s: seq<Opportunity>, o: Opportunity)
    ensures DistinctIds(s + [o]) <==> DistinctIds(s) && forall a :: a in s ==> a.id != o.id
  {
    if DistinctIds(s + [o]) {
      forall i, j | 0 <= i < j < |s| ensures s[i].id != s[j].id {
        assert (s + [o])[i].id != (s + [o])[j].id;
      }
      forall i | 0 <= i < |s| ensures s[i].id != o.id {
        assert (s + [o])[i].id != (s + [o])[|s|].id;
      }
    }
  }

  lemma {:induction false} FreshMember(existing: set<string>, ops: seq<Opportunity>, a: Opportunity)
    ensures a in Fresh(existing, ops) <==> a in ops && a.id !in existing
  {
    if ops != [] {
      FreshMember(existing, ops[..|ops| - 1], a);
      assert ops == ops[..|ops| - 1] + [ops[|ops| - 1]];
    }
  }

  // ---- The plans by the rule -----------------------------------------------------------------

  // The k-th ranked opportunity is not linked yet and is one of the plan's.
  ghost predicate Member(existing: set<string>, ranked: seq<Opportunity>, plan: Plan, k: nat) {
    k < |ranked| && ranked[k].id !in existing && ranked[k].id in plan.opportunities
  }

  ghost predicate Protected(ctx: Context, path: string) {
    exists m, pattern {:trigger m in ctx.constitution.protectedModules, ctx.matches(path, pattern)} ::
      m in ctx.constitution.protectedModules && pattern in m && ctx.matches(path, pattern)
  }

  // What the plan says of its k-th opportunity.
  ghost predicate MemberFits(ctx: Context, mode: Mode, existing: set<string>, ranked: seq<Opportunity>, plan: Plan,
                             k: nat)
    requires k < |ranked|
  {
    && plan.category == ranked[k].category && plan.confidence <= ranked[k].confidence
    && plan.tier
       == (if exists p :: p in plan.paths && Protected(ctx, p) then "tier_3_advisory" else ranked[k].tier)
    && DecisionFits(ctx, mode, existing, ranked, k, plan.decision)
  }

  ghost predicate IdsFit(existing: set<string>, ranked: seq<Opportunity>, plan: Plan) {
    forall id {:trigger id in plan.opportunities} :: id in plan.opportunities ==>
      exists k: nat {:trigger Member(existing, ranked, plan, k)} ::
        Member(existing, ranked, plan, k) && ranked[k].id == id
  }

  ghost predicate ConfidenceFits(existing: set<string>, ranked: seq<Opportunity>, plan: Plan) {
    exists k: nat {:trigger Member(existing, ranked, plan, k)} ::
      Member(existing, ranked, plan, k) && ranked[k].confidence == plan.confidence
  }

  ghost predicate PathsFit(existing: set<string>, ranked: seq<Opportunity>, plan: Plan) {
    forall p {:trigger p in plan.paths} ::
      p in plan.paths <==> exists k: nat {:trigger Member(existing, ranked, plan, k)} ::
        Member(existing, ranked, plan, k) && p in ranked[k].paths
  }

  // Ids, paths and confidence are those of the plan's opportunities.
  ghost predicate Covers(existing: set<string>, ranked: seq<Opportunity>, plan: Plan) {
    IdsFit(existing, ranked, plan) && ConfidenceFits(existing, ranked, plan) && PathsFit(existing, ranked, plan)
  }

  // The plan's threshold is the least confidence that is enough for its category.
  ghost predicate ThresholdFits(ctx: Context, plan: Plan) {
    forall c: real {:trigger ConfidentEnough(ctx, plan.category, c)} ::
      ConfidentEnough(ctx, plan.category, c) <==> c >= plan.threshold
  }

  ghost predicate FollowsRule(ctx: Context, mode: Mode, existing: set<string>, ranked: seq<Opportunity>, plan: Plan) {
    && 1 <= |plan.opportunities| <= 3 && Covers(existing, ranked, plan) && ThresholdFits(ctx, plan)
    && forall k: nat {:trigger Member(existing, ranked, plan, k)} :: Member(existing, ranked, plan, k) ==>
         MemberFits(ctx, mode, existing, ranked, plan, k)
  }

  ghost predicate InOnePlan(existing: set<string>, ranked: seq<Opportunity>, plans: seq<Plan>, k: nat) {
    && (exists i :: 0 <= i < |plans| && Member(existing, ranked, plans[i], k))
    && (forall i, j :: 0 <= i < j < |plans| && Member(existing, ranked, plans[i], k) ==>
          !Member(existing, ranked, plans[j], k))
  }

  // Each plan follows the rule, and each opportunity that is not linked yet is in one plan.
  ghost predicate PlansFollowRule(ctx: Context, mode: Mode, existing: set<string>, ranked: seq<Opportunity>,
                                  plans: seq<Plan>) {
    && (forall i {:trigger plans[i]} :: 0 <= i < |plans| ==> FollowsRule(ctx, mode, existing, ranked, plans[i]))
    && (forall k {:trigger ranked[k]} :: 0 <= k < |ranked| && ranked[k].id !in existing ==>
          InOnePlan(existing, ranked, plans, k))
  }

  // A group's opportunities are ranked ones that are not linked yet.
  lemma {:induction false} GroupedFrom(ctx: Context, existing: set<string>, ops: seq<Opportunity>, g: Group,
        o: Opportunity) returns (k: nat)
    requires FromPlanning(ctx, existing, ops, g) && o in g
    ensures k < |ops| && ops[k] == o && o.id !in existing
  {
    var gs := Placed(PolicyBlocks(ctx), existing, ops).groups;
    hide Placed;
    EveryFreshLandsOnce(PolicyBlocks(ctx), existing, ops);
    FlattenMember(gs, o);
    assert o in multiset(Flatten(gs));
    FreshMember(existing, ops, o);
    k :| 0 <= k < |ops| && ops[k] == o;
  }

  // Ids tell the members.
  lemma {:induction false} MemberIff(ctx: Context, existing: set<string>, ops: seq<Opportunity>, g: Group, plan: Plan,
        k: nat)
    requires FromPlanning(ctx, existing, ops, g) && plan.opportunities == Ids(g)
    ensures Member(existing, ops, plan, k) <==> k < |ops| && ops[k] in g && ops[k].id !in existing
  {
    hide Placed;
    if k < |ops| && ops[k].id !in existing {
      if ops[k].id in Ids(g) {
        var i :| 0 <= i < |g| && g[i].id == ops[k].id;
        var j := GroupedFrom(ctx, existing, ops, g, g[i]);
        assert j == k;
      }
      if ops[k] in g {
        var i :| 0 <= i < |g| && g[i] == ops[k];
        assert Ids(g)[i] == ops[k].id;
      }
    }
  }

  // A conflict is only held against what policy allows.
  lemma {:induction false} ForcedAllowed(blocked: Opportunity -> bool, existing: set<string>, ops: seq<Opportunity>,
        k: nat)
    requires FreshDistinct(existing, ops) && k < |ops| && ops[k].id !in existing
    requires ops[k].id in Placed(blocked, existing, ops).forced
    ensures !blocked(ops[k])
  {
    var init, o := ops[..|ops| - 1], ops[|ops| - 1];
    assert FreshDistinct(existing, init);
    ForcedAreFresh(blocked, existing, init);
    if k < |init| {
      assert init[k] == ops[k];
      if ops[k].id in Placed(blocked, existing, init).forced { ForcedAllowed(blocked, existing, init, k); }
    }
  }

  lemma {:induction false} ForcedAreFresh(blocked: Opportunity -> bool, existing: set<string>, ops: seq<Opportunity>)
    requires FreshDistinct(existing, ops)
    ensures forall id :: id in Placed(blocked, existing, ops).forced ==>
              exists j {:trigger ops[j]} :: 0 <= j < |ops| && ops[j].id == id && ops[j].id !in existing
  {
    PlacedChunked(blocked, existing, ops);
    hide Placed, Chunked;
  }

  // An opportunity of an unblocked group is kept; a blocked group's single one is not.
  lemma {:induction false} OpenIffKept(ctx: Context, existing: set<string>, ops: seq<Opportunity>, g: Group, k: nat)
    requires FromPlanning(ctx, existing, ops, g) && k < |ops| && ops[k] in g && ops[k].id !in existing
    ensures !GroupBlocked(PolicyBlocks(ctx), Placed(PolicyBlocks(ctx), existing, ops).forced, g)
       <==> KeptAt(ctx, existing, ops, k)
  {
    var blocked, o := PolicyBlocks(ctx), ops[k];
    var st, kept := Placed(blocked, existing, ops), Kept(blocked, existing, ops);
    PlacedChunked(blocked, existing, ops);
    KeptIff(ctx, existing, ops, |ops|);
    assert ops[..|ops|] == ops;
    hide Placed, Kept, KeptAt, GroupBlocked, Chunked, GroupsOk;
    if !GroupBlocked(blocked, st.forced, g) {
      MemberIsKept(blocked, st, FreshIds(existing, ops), kept, g, o);
      assert KeptEarlier(ctx, existing, ops, |ops|, o);
    } else if KeptAt(ctx, existing, ops, k) {
      assert KeptEarlier(ctx, existing, ops, |ops|, o);
      var h := KeptIsMember(blocked, st, kept, o);
      InAnotherGroup(ctx, existing, ops, g, h, o);
    }
  }

  // A group's opportunities have one category and one tier.
  lemma {:induction false} OneClass(ctx: Context, existing: set<string>, ops: seq<Opportunity>, g: Group,
        o: Opportunity)
    requires FromPlanning(ctx, existing, ops, g) && o in g
    ensures InClass(o, g[0].category, g[0].tier) && 1 <= |g| <= 3
  {
    var blocked := PolicyBlocks(ctx);
    var st := Placed(blocked, existing, ops);
    PlacedChunked(blocked, existing, ops);
    hide Placed;
    if GroupBlocked(blocked, st.forced, g) {
      BlockedGroupIsSingle(blocked, existing, ops, g);
    } else {
      var mine := OfClass(Kept(blocked, existing, ops), g[0].category, g[0].tier);
      ClassGroupsMember(blocked, st.forced, st.groups, g[0].category, g[0].tier, g);
      ChunksShape(mine);
      assert g in Chunks(mine);
      hide Chunks, OfClass, Chunked, Kept;
    }
  }

  lemma {:induction false} BlockedDecision(ctx: Context, mode: Mode, existing: set<string>, ops: seq<Opportunity>,
        g: Group, k: nat)
    requires FromPlanning(ctx, existing, ops, g) && k < |ops| && g == [ops[k]] && ops[k].id !in existing
    requires GroupBlocked(PolicyBlocks(ctx), Placed(PolicyBlocks(ctx), existing, ops).forced, g)
    ensures DecisionFits(ctx, mode, existing, ops, k,
                         FinalDecision(ctx, mode, Placed(PolicyBlocks(ctx), existing, ops).forced, g))
  {
    var o, forced := ops[k], Placed(PolicyBlocks(ctx), existing, ops).forced;
    OpenIffKept(ctx, existing, ops, g, k);
    PolicyAllowsPlannable(ctx, o);
    if o.id in forced {
      ForcedAllowed(PolicyBlocks(ctx), existing, ops, k);
    } else {
      PolicyReasonsHold(ctx, o);
    }
    hide Placed, EvaluatePolicy, Plannable, KeptAt;
    assert PolicyBlocks(ctx)(o) == EvaluatePolicy(ctx, o).Blocked?;
  }

  lemma {:induction false} PlanDecides(ctx: Context, mode: Mode, existing: set<string>, ops: seq<Opportunity>,
        g: Group, k: nat)
    requires FromPlanning(ctx, existing, ops, g) && k < |ops| && ops[k] in g && ops[k].id !in existing
    ensures DecisionFits(ctx, mode, existing, ops, k,
                         FinalDecision(ctx, mode, Placed(PolicyBlocks(ctx), existing, ops).forced, g))
  {
    var blocked, forced := PolicyBlocks(ctx), Placed(PolicyBlocks(ctx), existing, ops).forced;
    if GroupBlocked(blocked, forced, g) {
      BlockedGroupIsSingle(blocked, existing, ops, g);
      assert g == [ops[k]];
      BlockedDecision(ctx, mode, existing, ops, g, k);
    } else {
      OpenIffKept(ctx, existing, ops, g, k);
      OneClass(ctx, existing, ops, g, ops[k]);
      hide Placed, EvaluatePolicy, KeptAt;
      forall o | o in g
        ensures EvaluatePolicy(ctx, o).Allowed?
      {
        assert !blocked(o);
      }
    }
  }

  lemma {:induction false} ProtectedIff(ctx: Context, path: string)
    ensures IsProtectedPath(ctx, path) <==> Protected(ctx, path)
  {
    if Protected(ctx, path) {
      var m, pattern :| m in ctx.constitution.protectedModules && pattern in m && ctx.matches(path, pattern);
      var i :| 0 <= i < |ctx.constitution.protectedModules| && ctx.constitution.protectedModules[i] == m;
      var j :| 0 <= j < |m| && m[j] == pattern;
      assert MatchesAny(ctx, path, ctx.constitution.protectedModules[i]);
    }
    if IsProtectedPath(ctx, path) {
      var i :| 0 <= i < |ctx.constitution.protectedModules|
          && MatchesAny(ctx, path, ctx.constitution.protectedModules[i]);
      assert ctx.constitution.protectedModules[i] in ctx.constitution.protectedModules;
    }
  }

  lemma {:induction false} ProtectedGroup(ctx: Context, g: Group)
    ensures TouchesProtected(ctx, g) <==> exists p :: p in Unique(AllPaths(g)) && Protected(ctx, p)
  {
    forall p
      ensures IsProtectedPath(ctx, p) <==> Protected(ctx, p)
    {
      ProtectedIff(ctx, p);
    }
    hide Protected, IsProtectedPath;
    if TouchesProtected(ctx, g) {
      var o, p :| o in g && p in o.paths && IsProtectedPath(ctx, p);
      assert p in AllPaths(g);
      assert p in Unique(AllPaths(g)) && Protected(ctx, p);
    }
    if p :| p in Unique(AllPaths(g)) && Protected(ctx, p) {
      assert p in AllPaths(g);
      var o :| o in g && p in o.paths;
    }
  }

  lemma {:induction false} MinIsLeast(g: Group, o: Opportunity)
    requires o in g
    ensures MinConfidence(g) <= o.confidence
  {
    hide MinConfidence;
  }

  lemma {:induction false} PlanSays(ctx: Context, mode: Mode, forced: set<string>, g: Group, plan: Plan)
    requires IsPlanFor(ctx, mode, forced, g, plan)
    ensures g != [] && plan.category == g[0].category && plan.confidence == MinConfidence(g)
    ensures plan.tier == (if TouchesProtected(ctx, g) then "tier_3_advisory" else g[0].tier)
    ensures plan.paths == Unique(AllPaths(g)) && plan.decision == FinalDecision(ctx, mode, forced, g)
  {
    hide TouchesProtected, MinConfidence, Unique, AllPaths, FinalDecision, MaxThreshold, Ids;
  }

  lemma {:induction false} PlanFitsMember(ctx: Context, mode: Mode, existing: set<string>, ops: seq<Opportunity>,
        g: Group, plan: Plan, k: nat)
    requires FromPlanning(ctx, existing, ops, g)
    requires IsPlanFor(ctx, mode, Placed(PolicyBlocks(ctx), existing, ops).forced, g, plan)
    requires k < |ops| && ops[k] in g && ops[k].id !in existing
    ensures MemberFits(ctx, mode, existing, ops, plan, k)
  {
    var forced := Placed(PolicyBlocks(ctx), existing, ops).forced;
    hide Placed, FinalDecision, DecisionFits, TouchesProtected, Protected, FromPlanning, MinConfidence, AllPaths,
      Unique, Ids, MaxThreshold;
    PlanDecides(ctx, mode, existing, ops, g, k);
    OneClass(ctx, existing, ops, g, ops[k]);
    ProtectedGroup(ctx, g);
    MinIsLeast(g, ops[k]);
    PlanSays(ctx, mode, forced, g, plan);
    hide PlanFor, IsPlanFor, PlanTier;
  }

  // The plan's members are the group's.
  ghost predicate MembersOf(existing: set<string>, ranked: seq<Opportunity>, plan: Plan, g: Group) {
    && (forall k: nat {:trigger Member(existing, ranked, plan, k)} ::
          Member(existing, ranked, plan, k) ==> k < |ranked| && ranked[k] in g)
    && (forall o {:trigger o in g} :: o in g ==>
          exists k: nat {:trigger Member(existing, ranked, plan, k)} ::
            Member(existing, ranked, plan, k) && ranked[k] == o)
  }

  lemma {:induction false} MembersAreGroup(ctx: Context, existing: set<string>, ops: seq<Opportunity>, g: Group,
        plan: Plan)
    requires FromPlanning(ctx, existing, ops, g) && plan.opportunities == Ids(g)
    ensures MembersOf(existing, ops, plan, g)
  {
    hide FromPlanning, Member;
    forall k: nat | Member(existing, ops, plan, k)
      ensures k < |ops| && ops[k] in g
    {
      MemberIff(ctx, existing, ops, g, plan, k);
    }
    forall o | o in g
      ensures exists k: nat {:trigger Member(existing, ops, plan, k)} :: Member(existing, ops, plan, k) && ops[k] == o
    {
      var k := GroupedFrom(ctx, existing, ops, g, o);
      MemberIff(ctx, existing, ops, g, plan, k);
    }
  }

  lemma {:induction false} PlanCovers(ctx: Context, mode: Mode, existing: set<string>, ops: seq<Opportunity>,
        g: Group, plan: Plan)
    requires FromPlanning(ctx, existing, ops, g)
    requires IsPlanFor(ctx, mode, Placed(PolicyBlocks(ctx), existing, ops).forced, g, plan)
    ensures 1 <= |plan.opportunities| <= 3 && Covers(existing, ops, plan) && ThresholdFits(ctx, plan)
  {
    PlanFields(ctx, mode, Placed(PolicyBlocks(ctx), existing, ops).forced, g, plan);
    hide *;
    MembersAreGroup(ctx, existing, ops, g, plan);
    OneClass(ctx, existing, ops, g, g[0]);
    GroupThreshold(ctx, existing, ops, g);
    IdsCovered(existing, ops, plan, g);
    ConfidenceCovered(existing, ops, plan, g);
    PathsCovered(existing, ops, plan, g);
    CoversAll(existing, ops, plan);
    ThresholdIsLeast(ctx, plan);
  }

  lemma {:induction false} PlanFields(ctx: Context, mode: Mode, forced: set<string>, g: Group, plan: Plan)
    requires IsPlanFor(ctx, mode, forced, g, plan)
    ensures g != [] && plan.opportunities == Ids(g) && |Ids(g)| == |g| && plan.category == g[0].category
    ensures plan.confidence == MinConfidence(g) && plan.paths == Unique(AllPaths(g))
    ensures plan.threshold == MaxThreshold(ctx, g)
  {
  }

  lemma {:induction false} CoversAll(existing: set<string>, ops: seq<Opportunity>, plan: Plan)
    requires IdsFit(existing, ops, plan) && ConfidenceFits(existing, ops, plan) && PathsFit(existing, ops, plan)
    ensures Covers(existing, ops, plan)
  {
  }

  lemma {:induction false} ThresholdIsLeast(ctx: Context, plan: Plan)
    requires plan.threshold == EffectiveThreshold(ctx, plan.category)
    ensures ThresholdFits(ctx, plan)
  {
    hide ConfidentEnough, EffectiveThreshold;
    forall c: real
      ensures ConfidentEnough(ctx, plan.category, c) <==> c >= plan.threshold
    {
      ThresholdReached(ctx, plan.category, c);
    }
  }

  lemma {:induction false} IdsCovered(existing: set<string>, ops: seq<Opportunity>, plan: Plan, g: Group)
    requires MembersOf(existing, ops, plan, g) && plan.opportunities == Ids(g)
    ensures IdsFit(existing, ops, plan)
  {
    hide Member;
    forall id | id in plan.opportunities
      ensures exists k: nat {:trigger Member(existing, ops, plan, k)} ::
                Member(existing, ops, plan, k) && ops[k].id == id
    {
      var i :| 0 <= i < |g| && Ids(g)[i] == id;
      assert g[i] in g;
    }
  }

  lemma {:induction false} ConfidenceCovered(existing: set<string>, ops: seq<Opportunity>, plan: Plan, g: Group)
    requires MembersOf(existing, ops, plan, g) && g != [] && plan.confidence == MinConfidence(g)
    ensures ConfidenceFits(existing, ops, plan)
  {
    var o :| o in g && o.confidence == plan.confidence;
    hide Member, MinConfidence;
  }

  lemma {:induction false} PathsCovered(existing: set<string>, ops: seq<Opportunity>, plan: Plan, g: Group)
    requires MembersOf(existing, ops, plan, g) && plan.paths == Unique(AllPaths(g))
    ensures PathsFit(existing, ops, plan)
  {
    hide Member, AllPaths, Unique;
    forall p
      ensures p in plan.paths <==> exists o :: o in g && p in o.paths
    {
      assert p in plan.paths <==> p in AllPaths(g);
    }
  }

  lemma {:induction false} GroupThreshold(ctx: Context, existing: set<string>, ops: seq<Opportunity>, g: Group)
    requires FromPlanning(ctx, existing, ops, g) && g != []
    ensures MaxThreshold(ctx, g) == EffectiveThreshold(ctx, g[0].category)
  {
    forall o | o in g
      ensures o.category == g[0].category
    {
      OneClass(ctx, existing, ops, g, o);
    }
    hide EffectiveThreshold;
  }

  lemma {:induction false} PlanFollows(ctx: Context, mode: Mode, existing: set<string>, ops: seq<Opportunity>,
        g: Group, plan: Plan)
    requires FromPlanning(ctx, existing, ops, g)
    requires IsPlanFor(ctx, mode, Placed(PolicyBlocks(ctx), existing, ops).forced, g, plan)
    ensures FollowsRule(ctx, mode, existing, ops, plan)
  {
    hide Placed, Covers, MemberFits;
    PlanCovers(ctx, mode, existing, ops, g, plan);
    forall k: nat | Member(existing, ops, plan, k)
      ensures MemberFits(ctx, mode, existing, ops, plan, k)
    {
      MemberIff(ctx, existing, ops, g, plan, k);
      PlanFitsMember(ctx, mode, existing, ops, g, plan, k);
    }
  }

  lemma {:induction false} EachInOnePlan(ctx: Context, mode: Mode, existing: set<string>, ops: seq<Opportunity>,
        plans: seq<Plan>, k: nat)
    requires FreshDistinct(existing, ops) && k < |ops| && ops[k].id !in existing
    requires var st := Placed(PolicyBlocks(ctx), existing, ops); PlansFor(ctx, mode, st.forced, st.groups, plans)
    ensures InOnePlan(existing, ops, plans, k)
  {
    var st := Placed(PolicyBlocks(ctx), existing, ops);
    hide Placed;
    EveryFreshLandsOnce(PolicyBlocks(ctx), existing, ops);
    FreshMember(existing, ops, ops[k]);
    assert ops[k] in multiset(Fresh(existing, ops));
    assert ops[k] in multiset(Flatten(st.groups));
    FlattenMember(st.groups, ops[k]);
    forall i | 0 <= i < |plans|
      ensures Member(existing, ops, plans[i], k) <==> ops[k] in st.groups[i]
    {
      assert IsPlanFor(ctx, mode, st.forced, st.groups[i], plans[i]);
      MemberIff(ctx, existing, ops, st.groups[i], plans[i], k);
    }
    var g :| g in st.groups && ops[k] in g;
    var n :| 0 <= n < |st.groups| && st.groups[n] == g;
    hide Member, PlansFor, IsPlanFor, Flatten, Fresh;
    forall i, j | 0 <= i < j < |plans| && Member(existing, ops, plans[i], k)
      ensures !Member(existing, ops, plans[j], k)
    {
      InOneGroup(PolicyBlocks(ctx), existing, ops, i, j, ops[k]);
    }
    assert Member(existing, ops, plans[n], k);
  }

  lemma {:induction false} PlansFollow(ctx: Context, mode: Mode, existing: set<string>, ops: seq<Opportunity>,
        plans: seq<Plan>)
    requires FreshDistinct(existing, ops)
    requires var st := Placed(PolicyBlocks(ctx), existing, ops); PlansFor(ctx, mode, st.forced, st.groups, plans)
    ensures PlansFollowRule(ctx, mode, existing, ops, plans)
  {
    var st := Placed(PolicyBlocks(ctx), existing, ops);
    hide Placed, FollowsRule, InOnePlan;
    forall i | 0 <= i < |plans|
      ensures FollowsRule(ctx, mode, existing, ops, plans[i])
    {
      assert IsPlanFor(ctx, mode, st.forced, st.groups[i], plans[i]);
      PlanFollows(ctx, mode, existing, ops, st.groups[i], plans[i]);
    }
    forall k | 0 <= k < |ops| && ops[k].id !in existing
      ensures InOnePlan(existing, ops, plans, k)
    {
      EachInOnePlan(ctx, mode, existing, ops, plans, k);
    }
  }

  // The whole call.  It fails exactly when two opportunities that are not linked yet share an id;
  // otherwise the plans are those of the grouping, with new and distinct branch names.
  method PlanMaintenancePrs(ctx: Context, mode: Mode, ops: seq<Opportunity>, existing: set<string>,
        used: set<string>, naming: Naming)
    returns (outcome: Outcome)
    ensures outcome.Planned? <==> FreshDistinct(existing, SortByRank(ctx.profile.accepted, ops))
    ensures outcome.Planned? ==>
              var st := Placed(PolicyBlocks(ctx), existing, SortByRank(ctx.profile.accepted, ops));
              && PlansFor(ctx, mode, st.forced, st.groups, outcome.plans)
              && FreshBranches(used, outcome.plans)
              && (RoomForNames(used, |st.groups|) ==> ShortBranches(outcome.plans))
    ensures outcome.Planned? ==>
              PlansFollowRule(ctx, mode, existing, SortByRank(ctx.profile.accepted, ops), outcome.plans)
  {
    var ranked := SortByRank(ctx.profile.accepted, ops);
    var groups, forced := GroupOpportunities(ranked, existing, PolicyBlocks(ctx));
    EveryFreshLandsOnce(PolicyBlocks(ctx), existing, ranked);
    FreshDistinctIsDistinct(existing, ranked);
    if FreshDistinct(existing, ranked) {
      DistinctIdsPermute(Fresh(existing, ranked), Flatten(groups));
    }
    if DistinctIds(Flatten(groups)) {
      DistinctIdsPermute(Flatten(groups), Fresh(existing, ranked));
    }
    var plans := CreatePlans(ctx, mode, State(groups, forced), used, naming);
    var linked := LinkOpportunities(groups);
    hide *;
    if linked { PlansFollow(ctx, mode, existing, ranked, plans); }
    outcome := if linked then Planned(plans) else DuplicateOpportunity;
  }

  // ---- Input order ---------------------------------------------------------------------------

  // Linked opportunities leave no trace in the grouping.
  lemma {:induction false} PlacedFresh(blocked: Opportunity -> bool, existing: set<string>, ops: seq<Opportunity>)
    ensures Placed(blocked, existing, ops) == Placed(blocked, existing, Fresh(existing, ops))
  {
    if ops != [] {
      var init, o := ops[..|ops| - 1], ops[|ops| - 1];
      PlacedFresh(blocked, existing, init);
      hide Place;
      var rest := Fresh(existing, init);
      if o.id !in existing {
        assert (rest + [o])[..|rest|] == rest;
      } else {
        assert rest + [] == rest;
      }
    }
  }

  lemma {:induction false} FreshRanked(accepted: set<string>, existing: set<string>, ops: seq<Opportunity>)
    requires Ranked(accepted, ops)
    ensures Ranked(accepted, Fresh(existing, ops))
    ensures forall o :: o in Fresh(existing, ops) <==> o in ops && o.id !in existing
  {
    if ops != [] {
      var init, last := ops[..|ops| - 1], ops[|ops| - 1];
      FreshRanked(accepted, existing, init);
      assert ops == init + [last];
      var rest := Fresh(existing, init);
      hide Ahead;
      forall i | 0 <= i < |rest|
        ensures !Ahead(accepted, last, rest[i])
      {
        assert rest[i] in rest;
      }
    }
  }

  // Listing the same opportunities in another order gives the same groups.
  lemma {:induction false} PlanningIgnoresInputOrder(ctx: Context, existing: set<string>,
        a: seq<Opportunity>, b: seq<Opportunity>)
    requires multiset(a) == multiset(b) && FreshDistinct(existing, a)
    ensures Placed(PolicyBlocks(ctx), existing, SortByRank(ctx.profile.accepted, a))
         == Placed(PolicyBlocks(ctx), existing, SortByRank(ctx.profile.accepted, b))
  {
    var u, v := SortByRank(ctx.profile.accepted, a), SortByRank(ctx.profile.accepted, b);
    SortIsRanked(ctx.profile.accepted, a);
    SortIsRanked(ctx.profile.accepted, b);
    FreshSame(ctx.profile.accepted, existing, a, u, v);
    PlacedFresh(PolicyBlocks(ctx), existing, u);
    PlacedFresh(PolicyBlocks(ctx), existing, v);
    hide *;
  }

  lemma {:induction false} FreshSame(accepted: set<string>, existing: set<string>, a: seq<Opportunity>,
        u: seq<Opportunity>, v: seq<Opportunity>)
    requires FreshDistinct(existing, a) && multiset(u) == multiset(a) && multiset(v) == multiset(a)
    requires Ranked(accepted, u) && Ranked(accepted, v)
    ensures Fresh(existing, u) == Fresh(existing, v)
  {
    FreshRanked(accepted, existing, u);
    FreshRanked(accepted, existing, v);
    FreshPermuted(existing, a, u);
    FreshPermuted(existing, a, v);
    hide Ranked, Fresh, DistinctIds, FreshDistinct;
    forall o
      ensures o in u <==> o in v
    {
      assert o in u <==> o in multiset(u);
      assert o in v <==> o in multiset(v);
    }
    RankedUnique(accepted, Fresh(existing, u), Fresh(existing, v));
  }

  lemma {:induction false} FreshMultiset(existing: set<string>, ops: seq<Opportunity>, o: Opportunity)
    ensures multiset(Fresh(existing, ops))[o] == if o.id in existing then 0 else multiset(ops)[o]
  {
    if ops != [] {
      FreshNext(existing, ops);
      hide *;
      var init, last := ops[..|ops| - 1], ops[|ops| - 1];
      FreshMultiset(existing, init, o);
      CountAppend(init, last, o);
      CountAppend(Fresh(existing, init), last, o);
    }
  }

  lemma {:induction false} FreshNext(existing: set<string>, ops: seq<Opportunity>)
    requires ops != []
    ensures var init, last := ops[..|ops| - 1], ops[|ops| - 1];
            && ops == init + [last]
            && Fresh(existing, ops)
               == if last.id in existing then Fresh(existing, init) else Fresh(existing, init) + [last]
  {
  }

  lemma {:induction false} CountAppend(s: seq<Opportunity>, a: Opportunity, o: Opportunity)
    ensures multiset(s + [a])[o] == multiset(s)[o] + if a == o then 1 else 0
  {
    assert multiset(s + [a]) == multiset(s) + multiset{a};
  }

  // A rearrangement has the same opportunities left to place, with distinct ids.
  lemma {:induction false} FreshPermuted(existing: set<string>, a: seq<Opportunity>, u: seq<Opportunity>)
    requires FreshDistinct(existing, a) && multiset(u) == multiset(a)
    ensures DistinctIds(Fresh(existing, u))
  {
    FreshDistinctIsDistinct(existing, a);
    forall o
      ensures multiset(Fresh(existing, u))[o] == multiset(Fresh(existing, a))[o]
    {
      FreshMultiset(existing, a, o);
      FreshMultiset(existing, u, o);
    }
    hide Fresh, FreshDistinct;
    DistinctIdsPermute(Fresh(existing, a), Fresh(existing, u));
  }
}
