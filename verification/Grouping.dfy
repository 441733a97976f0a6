/** Greedy first-fit grouping of opportunities. */
module Grouping {
  // In rank order, at most three to a group, one category and risk tier per group, and no path in
  // two plans.  `Placed` is the outcome as a function of the ranked opportunities; the method
  // `GroupOpportunities` is the loop that computes it.

  import opened Policy

  const GROUP_SIZE_LIMIT := 3

  type Group = seq<Opportunity>
  datatype State = State(groups: seq<Group>, forced: set<string>)

  predicate SharesPath(a: Opportunity, b: Opportunity) {
    exists p :: p in a.paths && p in b.paths
  }

  // Blocked by policy, or forced out because of a path conflict.
  predicate GroupBlocked(blocked: Opportunity -> bool, forced: set<string>, g: Group)
    requires g != []
  {
    g[0].id in forced || exists o :: o in g && blocked(o)
  }

  predicate Conflicts(blocked: Opportunity -> bool, st: State, o: Opportunity)
    requires [] !in st.groups
  {
    exists g :: g in st.groups && !GroupBlocked(blocked, st.forced, g) && exists m :: m in g && SharesPath(m, o)
  }

  predicate Compatible(g: Group, o: Opportunity)
    requires g != []
  {
    && |g| < GROUP_SIZE_LIMIT
    && g[0].category == o.category && g[0].tier == o.tier
    && !exists m :: m in g && SharesPath(m, o)
  }

  predicate Accepts(blocked: Opportunity -> bool, forced: set<string>, g: Group, o: Opportunity)
    requires g != []
  {
    !GroupBlocked(blocked, forced, g) && Compatible(g, o)
  }

  // The first group from `k` on that accepts `o`, or the number of groups.
  function FirstFit(blocked: Opportunity -> bool, st: State, o: Opportunity, k: nat): (i: nat)
    requires [] !in st.groups && k <= |st.groups|
    ensures k <= i <= |st.groups|
    ensures forall j :: k <= j < i ==> !Accepts(blocked, st.forced, st.groups[j], o)
    ensures i < |st.groups| ==> Accepts(blocked, st.forced, st.groups[i], o)
    decreases |st.groups| - k
  {
    if k == |st.groups| || Accepts(blocked, st.forced, st.groups[k], o) then k
    else FirstFit(blocked, st, o, k + 1)
  }

  function Place(blocked: Opportunity -> bool, st: State, o: Opportunity): (r: State)
    requires [] !in st.groups
    ensures [] !in r.groups
  {
    if blocked(o) then st.(groups := st.groups + [[o]])
    else if Conflicts(blocked, st, o) then State(st.groups + [[o]], st.forced + {o.id})
    else
      var i := FirstFit(blocked, st, o, 0);
      if i < |st.groups| then st.(groups := st.groups[i := st.groups[i] + [o]])
      else st.(groups := st.groups + [[o]])
  }

  // All of `ops`, in order; opportunities already linked to a plan of the session are skipped.
  function Placed(blocked: Opportunity -> bool, existing: set<string>, ops: seq<Opportunity>): (r: State)
    ensures [] !in r.groups
  {
    if ops == [] then State([], {})
    else
      var st := Placed(blocked, existing, ops[..|ops| - 1]);
      var o := ops[|ops| - 1];
      if o.id in existing then st else Place(blocked, st, o)
  }

  method GroupOpportunities(ops: seq<Opportunity>, existing: set<string>, blocked: Opportunity -> bool)
    returns (groups: seq<Group>, forced: set<string>)
    ensures State(groups, forced) == Placed(blocked, existing, ops)
  {
    groups, forced := [], {};
    for k := 0 to |ops|
      invariant State(groups, forced) == Placed(blocked, existing, ops[..k])
    {
      assert ops[..k + 1][..k] == ops[..k];
      var o := ops[k];
      if o.id in existing { continue; }
      var st := State(groups, forced);
      if blocked(o) {
        groups := groups + [[o]];
      } else if Conflicts(blocked, st, o) {
        forced := forced + {o.id};
        groups := groups + [[o]];
      } else {
        var i := 0;
        while i < |groups| && !Accepts(blocked, forced, groups[i], o)
          invariant i <= |groups| && FirstFit(blocked, st, o, 0) == FirstFit(blocked, st, o, i)
        {
          i := i + 1;
        }
        if i < |groups| {
          groups := groups[i := groups[i] + [o]];
        } else {
          groups := groups + [[o]];
        }
      }
    }
    assert ops[..|ops|] == ops;
  }

  // ---- What is kept, independently of groups -------------------------------------------------

  predicate Clashes(kept: seq<Opportunity>, o: Opportunity) {
    exists m :: m in kept && SharesPath(m, o)
  }

  predicate IsKept(blocked: Opportunity -> bool, existing: set<string>, kept: seq<Opportunity>, o: Opportunity) {
    o.id !in existing && !blocked(o) && !Clashes(kept, o)
  }

  // Scanning in rank order, an opportunity is kept when policy allows it and it shares no path
  // with one kept before it.
  function Kept(blocked: Opportunity -> bool, existing: set<string>, ops: seq<Opportunity>): seq<Opportunity> {
    if ops == [] then []
    else
      var kept := Kept(blocked, existing, ops[..|ops| - 1]);
      var o := ops[|ops| - 1];
      if IsKept(blocked, existing, kept, o) then kept + [o] else kept
  }

  ghost predicate PathDisjoint(kept: seq<Opportunity>) {
    forall i, j :: 0 <= i < j < |kept| ==> !SharesPath(kept[i], kept[j])
  }

  lemma {:induction false} KeptDisjoint(blocked: Opportunity -> bool, existing: set<string>, ops: seq<Opportunity>)
    ensures PathDisjoint(Kept(blocked, existing, ops))
  {
    if ops != [] {
      var init, kept := Kept(blocked, existing, ops[..|ops| - 1]), Kept(blocked, existing, ops);
      KeptDisjoint(blocked, existing, ops[..|ops| - 1]);
      assert forall i :: 0 <= i < |init| ==> init[i] in init;
    }
  }

  lemma {:induction false} KeptPrefix(blocked: Opportunity -> bool, existing: set<string>, ops: seq<Opportunity>,
        k: nat)
    requires k <= |ops|
    ensures Kept(blocked, existing, ops[..k]) <= Kept(blocked, existing, ops)
    decreases |ops| - k
  {
    if k < |ops| {
      assert ops[..k + 1][..k] == ops[..k];
      KeptPrefix(blocked, existing, ops, k + 1);
    } else {
      assert ops[..k] == ops;
    }
  }

  lemma {:induction false} KeptComeFrom(blocked: Opportunity -> bool, existing: set<string>, ops: seq<Opportunity>,
        o: Opportunity)
    requires o in Kept(blocked, existing, ops)
    ensures o in ops && o.id !in existing && !blocked(o)
  {
    var init := ops[..|ops| - 1];
    if o in Kept(blocked, existing, init) {
      KeptComeFrom(blocked, existing, init, o);
    }
  }

  // Nothing that could have been kept is dropped: an allowed opportunity that is not kept shares
  // a path with a kept one ranked before it.
  lemma {:induction false} KeptMaximal(blocked: Opportunity -> bool, existing: set<string>, ops: seq<Opportunity>,
        k: nat) returns (j: nat)
    requires k < |ops| && ops[k].id !in existing && !blocked(ops[k])
    requires ops[k] !in Kept(blocked, existing, ops)
    ensures j < k && ops[j] in Kept(blocked, existing, ops) && SharesPath(ops[j], ops[k])
  {
    KeptPrefix(blocked, existing, ops, k + 1);
    KeptPrefix(blocked, existing, ops, k);
    assert ops[..k + 1][..k] == ops[..k];
    var before := Kept(blocked, existing, ops[..k]);
    assert ops[k] !in Kept(blocked, existing, ops[..k + 1]);
    var m :| m in before && SharesPath(m, ops[k]);
    KeptComeFrom(blocked, existing, ops[..k], m);
    j :| 0 <= j < k && ops[..k][j] == m;
  }

  // ---- Groups of one category and tier -------------------------------------------------------

  predicate InClass(o: Opportunity, category: string, tier: string) {
    o.category == category && o.tier == tier
  }

  function OfClass(ops: seq<Opportunity>, category: string, tier: string): seq<Opportunity> {
    if ops == [] then []
    else
      var rest := OfClass(ops[..|ops| - 1], category, tier);
      if InClass(ops[|ops| - 1], category, tier) then rest + [ops[|ops| - 1]] else rest
  }

  predicate IsOpenClass(blocked: Opportunity -> bool, forced: set<string>, g: Group, category: string, tier: string)
    requires g != []
  {
    !GroupBlocked(blocked, forced, g) && InClass(g[0], category, tier)
  }

  // The unblocked groups of a category and tier, in order.
  function ClassGroups(blocked: Opportunity -> bool, forced: set<string>, groups: seq<Group>, category: string,
        tier: string): seq<Group>
    requires [] !in groups
  {
    if groups == [] then []
    else
      var rest := ClassGroups(blocked, forced, groups[..|groups| - 1], category, tier);
      if IsOpenClass(blocked, forced, groups[|groups| - 1], category, tier) then rest + [groups[|groups| - 1]] else rest
  }

  // Runs of three, in order; only the last may be shorter.
  function AddToChunks(chunks: seq<Group>, o: Opportunity): seq<Group> {
    if chunks != [] && |chunks[|chunks| - 1]| < GROUP_SIZE_LIMIT
    then chunks[|chunks| - 1 := chunks[|chunks| - 1] + [o]]
    else chunks + [[o]]
  }

  function Chunks(ops: seq<Opportunity>): seq<Group> {
    if ops == [] then [] else AddToChunks(Chunks(ops[..|ops| - 1]), ops[|ops| - 1])
  }

  function Flatten(gs: seq<Group>): seq<Opportunity> {
    if gs == [] then [] else Flatten(gs[..|gs| - 1]) + gs[|gs| - 1]
  }

  lemma {:induction false} ChunksShape(ops: seq<Opportunity>)
    ensures var cs := Chunks(ops);
            && (forall i :: 0 <= i < |cs| ==> 1 <= |cs[i]| <= GROUP_SIZE_LIMIT)
            && (forall i :: 0 <= i < |cs| - 1 ==> |cs[i]| == GROUP_SIZE_LIMIT)
            && |ops| == (if cs == [] then 0 else GROUP_SIZE_LIMIT * (|cs| - 1) + |cs[|cs| - 1]|)
            && Flatten(cs) == ops
  {
    if ops != [] {
      var init, o := ops[..|ops| - 1], ops[|ops| - 1];
      ChunksShape(init);
      var before, after := Chunks(init), Chunks(ops);
      if |after| == |before| {
        assert after[..|after| - 1] == before[..|before| - 1];
      } else {
        assert after[..|after| - 1] == before;
      }
      assert ops == init + [o];
    }
  }

  lemma {:induction false} FlattenMember(gs: seq<Group>, o: Opportunity)
    ensures o in Flatten(gs) <==> exists g :: g in gs && o in g
  {
    if gs != [] {
      FlattenMember(gs[..|gs| - 1], o);
      assert gs == gs[..|gs| - 1] + [gs[|gs| - 1]];
    }
  }

  lemma {:induction false} ClassGroupsMember(blocked: Opportunity -> bool, forced: set<string>, groups: seq<Group>,
        category: string, tier: string, g: Group)
    requires [] !in groups && g != []
    ensures g in ClassGroups(blocked, forced, groups, category, tier)
       <==> g in groups && IsOpenClass(blocked, forced, g, category, tier)
  {
    if groups != [] {
      ClassGroupsMember(blocked, forced, groups[..|groups| - 1], category, tier, g);
      assert groups == groups[..|groups| - 1] + [groups[|groups| - 1]];
    }
  }

  lemma {:induction false} OfClassMember(ops: seq<Opportunity>, category: string, tier: string, o: Opportunity)
    ensures o in OfClass(ops, category, tier) <==> o in ops && InClass(o, category, tier)
  {
    if ops != [] {
      OfClassMember(ops[..|ops| - 1], category, tier, o);
      assert ops == ops[..|ops| - 1] + [ops[|ops| - 1]];
    }
  }

  // ---- First fit fills groups in rank order --------------------------------------------------

  ghost predicate GroupsOk(blocked: Opportunity -> bool, st: State, ids: set<string>) {
    && [] !in st.groups
    && st.forced <= ids
    && (forall g: Group, m :: g in st.groups && m in g ==> m.id in ids)
    && (forall g: Group, m :: g in st.groups && m in g && !GroupBlocked(blocked, st.forced, g) ==>
         InClass(m, g[0].category, g[0].tier))
  }

  // The unblocked groups of every class are the class's kept opportunities in runs of three.
  ghost predicate Chunked(blocked: Opportunity -> bool, st: State, kept: seq<Opportunity>)
    requires [] !in st.groups
  {
    forall category, tier {:trigger ClassGroups(blocked, st.forced, st.groups, category, tier)} ::
      ClassGroups(blocked, st.forced, st.groups, category, tier) == Chunks(OfClass(kept, category, tier))
  }

  lemma {:induction false} ForcedElsewhere(blocked: Opportunity -> bool, forced: set<string>, id: string,
        groups: seq<Group>, category: string, tier: string)
    requires [] !in groups && forall g: Group :: g in groups ==> g[0].id != id
    ensures ClassGroups(blocked, forced + {id}, groups, category, tier)
              == ClassGroups(blocked, forced, groups, category, tier)
  {
    if groups != [] {
      ForcedElsewhere(blocked, forced, id, groups[..|groups| - 1], category, tier);
      assert groups[|groups| - 1][0].id != id;
    }
  }

  // Growing the one open group of a class that has room grows the last of the class's groups.
  lemma {:induction false} GrowGroup(blocked: Opportunity -> bool, forced: set<string>, groups: seq<Group>, i: nat,
        o: Opportunity, category: string, tier: string)
    requires [] !in groups && i < |groups| && !blocked(o)
    requires IsOpenClass(blocked, forced, groups[i], category, tier)
    requires forall j :: i < j < |groups| ==> !IsOpenClass(blocked, forced, groups[j], category, tier)
    ensures var cs := ClassGroups(blocked, forced, groups, category, tier);
            && cs != [] && cs[|cs| - 1] == groups[i]
            && ClassGroups(blocked, forced, groups[i := groups[i] + [o]], category, tier)
                 == cs[|cs| - 1 := groups[i] + [o]]
  {
    var after := groups[i := groups[i] + [o]];
    if i < |groups| - 1 {
      GrowGroup(blocked, forced, groups[..|groups| - 1], i, o, category, tier);
      assert after[..|after| - 1] == groups[..|groups| - 1][i := groups[i] + [o]];
    } else {
      assert after[..|after| - 1] == groups[..|groups| - 1];
      assert !GroupBlocked(blocked, forced, groups[i] + [o]);
    }
  }

  lemma {:induction false} GrowOther(blocked: Opportunity -> bool, forced: set<string>, groups: seq<Group>, i: nat,
        o: Opportunity, category: string, tier: string)
    requires [] !in groups && i < |groups| && !blocked(o)
    requires !IsOpenClass(blocked, forced, groups[i], category, tier)
    ensures ClassGroups(blocked, forced, groups[i := groups[i] + [o]], category, tier)
              == ClassGroups(blocked, forced, groups, category, tier)
  {
    var after := groups[i := groups[i] + [o]];
    if i < |groups| - 1 {
      GrowOther(blocked, forced, groups[..|groups| - 1], i, o, category, tier);
      assert after[..|after| - 1] == groups[..|groups| - 1][i := groups[i] + [o]];
    } else {
      assert after[..|after| - 1] == groups[..|groups| - 1];
      assert GroupBlocked(blocked, forced, groups[i]) ==> GroupBlocked(blocked, forced, groups[i] + [o]);
    }
  }

  // An open group with another one of its class behind it is not the last of the class.
  lemma {:induction false} OpenNotLast(blocked: Opportunity -> bool, forced: set<string>, groups: seq<Group>, i: nat,
        j: nat, category: string, tier: string) returns (p: nat)
    requires [] !in groups && i < j < |groups|
    requires IsOpenClass(blocked, forced, groups[i], category, tier)
               && IsOpenClass(blocked, forced, groups[j], category, tier)
    ensures var cs := ClassGroups(blocked, forced, groups, category, tier); p < |cs| - 1 && cs[p] == groups[i]
  {
    var init := groups[..|groups| - 1];
    if j < |groups| - 1 {
      p := OpenNotLast(blocked, forced, init, i, j, category, tier);
    } else {
      ClassGroupsMember(blocked, forced, init, category, tier, groups[i]);
      assert init[i] == groups[i];
      p :| 0 <= p < |ClassGroups(blocked, forced, init, category, tier)|
          && ClassGroups(blocked, forced, init, category, tier)[p] == groups[i];
    }
  }

  // The members of unblocked groups are exactly the kept opportunities.
  lemma {:induction false} MemberIsKept(blocked: Opportunity -> bool, st: State, ids: set<string>,
        kept: seq<Opportunity>, g: Group, m: Opportunity)
    requires GroupsOk(blocked, st, ids) && Chunked(blocked, st, kept)
    requires g in st.groups && !GroupBlocked(blocked, st.forced, g) && m in g
    ensures m in kept
  {
    var c, t := g[0].category, g[0].tier;
    ClassGroupsMember(blocked, st.forced, st.groups, c, t, g);
    assert g in Chunks(OfClass(kept, c, t));
    ChunksShape(OfClass(kept, c, t));
    FlattenMember(Chunks(OfClass(kept, c, t)), m);
    OfClassMember(kept, c, t, m);
  }

  lemma {:induction false} KeptIsMember(blocked: Opportunity -> bool, st: State, kept: seq<Opportunity>,
        m: Opportunity) returns (g: Group)
    requires [] !in st.groups && Chunked(blocked, st, kept) && m in kept
    ensures g in st.groups && !GroupBlocked(blocked, st.forced, g) && m in g
  {
    var cs := Chunks(OfClass(kept, m.category, m.tier));
    OfClassMember(kept, m.category, m.tier, m);
    ChunksShape(OfClass(kept, m.category, m.tier));
    FlattenMember(cs, m);
    g :| g in cs && m in g;
    assert ClassGroups(blocked, st.forced, st.groups, m.category, m.tier) == cs;
    ClassGroupsMember(blocked, st.forced, st.groups, m.category, m.tier, g);
  }

  lemma {:induction false} ConflictsIffClashes(blocked: Opportunity -> bool, st: State, ids: set<string>,
        kept: seq<Opportunity>, o: Opportunity)
    requires GroupsOk(blocked, st, ids) && Chunked(blocked, st, kept)
    ensures Conflicts(blocked, st, o) <==> Clashes(kept, o)
  {
    if Conflicts(blocked, st, o) {
      var g :| g in st.groups && !GroupBlocked(blocked, st.forced, g) && exists m :: m in g && SharesPath(m, o);
      var m :| m in g && SharesPath(m, o);
      MemberIsKept(blocked, st, ids, kept, g, m);
    }
    if Clashes(kept, o) {
      var m :| m in kept && SharesPath(m, o);
      var g := KeptIsMember(blocked, st, kept, m);
    }
  }

  // A new group of its own changes no class but, when it is unblocked, its own.
  lemma {:induction false} AppendGroup(blocked: Opportunity -> bool, st: State, ids: set<string>, o: Opportunity,
        forced: set<string>, category: string, tier: string)
    requires GroupsOk(blocked, st, ids) && o.id !in ids
    requires forced == st.forced || forced == st.forced + {o.id}
    ensures var cs := ClassGroups(blocked, st.forced, st.groups, category, tier);
            ClassGroups(blocked, forced, st.groups + [[o]], category, tier) ==
              if o.id !in forced && !blocked(o) && InClass(o, category, tier) then cs + [[o]] else cs
  {
    assert (st.groups + [[o]])[..|st.groups|] == st.groups;
    if forced != st.forced {
      forall g: Group | g in st.groups
        ensures g[0].id != o.id
      {
        assert g[0] in g;
      }
      ForcedElsewhere(blocked, st.forced, o.id, st.groups, category, tier);
    }
    assert GroupBlocked(blocked, forced, [o]) <==> o.id in forced || blocked(o);
  }

  // Where first fit puts an opportunity, its class sees the next place in its runs of three.
  lemma {:induction false} FirstFitClass(blocked: Opportunity -> bool, st: State, ids: set<string>,
        kept: seq<Opportunity>, o: Opportunity, category: string, tier: string)
    requires GroupsOk(blocked, st, ids) && Chunked(blocked, st, kept) && o.id !in ids
    requires !blocked(o) && !Clashes(kept, o)
    ensures var cs := ClassGroups(blocked, st.forced, st.groups, category, tier);
            ClassGroups(blocked, st.forced, Place(blocked, st, o).groups, category, tier) ==
              if InClass(o, category, tier) then AddToChunks(cs, o) else cs
  {
    ConflictsIffClashes(blocked, st, ids, kept, o);
    var cs := ClassGroups(blocked, st.forced, st.groups, category, tier);
    var i := FirstFit(blocked, st, o, 0);
    ChunksShape(OfClass(kept, category, tier));
    if i < |st.groups| {
      var g := st.groups[i];
      if InClass(o, category, tier) {
        forall j | i < j < |st.groups|
          ensures !IsOpenClass(blocked, st.forced, st.groups[j], category, tier)
        {
          if IsOpenClass(blocked, st.forced, st.groups[j], category, tier) {
            var p := OpenNotLast(blocked, st.forced, st.groups, i, j, category, tier);
          }
        }
        GrowGroup(blocked, st.forced, st.groups, i, o, category, tier);
      } else {
        GrowOther(blocked, st.forced, st.groups, i, o, category, tier);
      }
    } else {
      AppendGroup(blocked, st, ids, o, st.forced, category, tier);
      if InClass(o, category, tier) && cs != [] && |cs[|cs| - 1]| < GROUP_SIZE_LIMIT {
        LastWouldAccept(blocked, st, ids, kept, o, cs[|cs| - 1]);
      }
    }
  }

  lemma {:induction false} LastWouldAccept(blocked: Opportunity -> bool, st: State, ids: set<string>,
        kept: seq<Opportunity>, o: Opportunity, g: Group)
    requires GroupsOk(blocked, st, ids) && Chunked(blocked, st, kept)
    requires !Clashes(kept, o) && g in ClassGroups(blocked, st.forced, st.groups, o.category, o.tier)
    requires 0 < |g| < GROUP_SIZE_LIMIT
    ensures FirstFit(blocked, st, o, 0) < |st.groups|
  {
    ClassGroupsMember(blocked, st.forced, st.groups, o.category, o.tier, g);
    forall m | m in g
      ensures !SharesPath(m, o)
    {
      MemberIsKept(blocked, st, ids, kept, g, m);
    }
    assert Accepts(blocked, st.forced, g, o);
    var j :| 0 <= j < |st.groups| && st.groups[j] == g;
  }

  lemma {:induction false} OfClassAppend(ops: seq<Opportunity>, o: Opportunity, category: string, tier: string)
    ensures OfClass(ops + [o], category, tier) == if InClass(o, category, tier) then
              OfClass(ops, category, tier) + [o] else OfClass(ops, category, tier)
    ensures InClass(o, category, tier) ==>
              Chunks(OfClass(ops + [o], category, tier)) == AddToChunks(Chunks(OfClass(ops, category, tier)), o)
  {
    assert (ops + [o])[..|ops|] == ops;
    var cs := OfClass(ops, category, tier);
    assert (cs + [o])[..|cs|] == cs;
  }

  // One step keeps the groups well formed,
  lemma {:induction false} PlaceOk(blocked: Opportunity -> bool, st: State, ids: set<string>, o: Opportunity)
    requires GroupsOk(blocked, st, ids) && o.id !in ids
    ensures GroupsOk(blocked, Place(blocked, st, o), ids + {o.id})
  {
    var r := Place(blocked, st, o);
    forall g: Group, m | g in r.groups && m in g
      ensures m.id in ids + {o.id}
      ensures !GroupBlocked(blocked, r.forced, g) ==> InClass(m, g[0].category, g[0].tier)
    {
      PlacedGroup(blocked, st, ids, o, g, m);
    }
  }

  lemma {:induction false} PlacedGroup(blocked: Opportunity -> bool, st: State, ids: set<string>, o: Opportunity,
        g: Group, m: Opportunity)
    requires GroupsOk(blocked, st, ids) && o.id !in ids
    requires g in Place(blocked, st, o).groups && m in g
    ensures m.id in ids + {o.id}
    ensures !GroupBlocked(blocked, Place(blocked, st, o).forced, g) ==> InClass(m, g[0].category, g[0].tier)
  {
    var r := Place(blocked, st, o);
    var k :| 0 <= k < |r.groups| && r.groups[k] == g;
    if k < |st.groups| && st.groups[k] == g {
      assert st.forced <= r.forced;
      assert GroupBlocked(blocked, st.forced, g) ==> GroupBlocked(blocked, r.forced, g);
    } else if k < |st.groups| {
      assert g == st.groups[k] + [o];
      assert m == o || m in st.groups[k];
    }
  }

  // and the unblocked groups of every class in runs of three.
  lemma {:induction false} PlaceChunked(blocked: Opportunity -> bool, st: State, ids: set<string>,
        kept: seq<Opportunity>, o: Opportunity)
    requires GroupsOk(blocked, st, ids) && Chunked(blocked, st, kept) && o.id !in ids
    ensures Chunked(blocked, Place(blocked, st, o), if !blocked(o) && !Clashes(kept, o) then kept + [o] else kept)
  {
    var r := Place(blocked, st, o);
    ConflictsIffClashes(blocked, st, ids, kept, o);
    forall category, tier
      ensures ClassGroups(blocked, r.forced, r.groups, category, tier) ==
                Chunks(OfClass(if !blocked(o) && !Clashes(kept, o) then kept + [o] else kept, category, tier))
    {
      assert ClassGroups(blocked, st.forced, st.groups, category, tier) == Chunks(OfClass(kept, category, tier));
      if blocked(o) || Clashes(kept, o) {
        AppendGroup(blocked, st, ids, o, r.forced, category, tier);
      } else {
        FirstFitClass(blocked, st, ids, kept, o, category, tier);
        OfClassAppend(kept, o, category, tier);
      }
    }
  }

  ghost predicate FreshDistinct(existing: set<string>, ops: seq<Opportunity>) {
    forall i, j :: 0 <= i < j < |ops| && ops[i].id !in existing && ops[j].id !in existing ==> ops[i].id != ops[j].id
  }

  ghost function FreshIds(existing: set<string>, ops: seq<Opportunity>): set<string> {
    set i | 0 <= i < |ops| && ops[i].id !in existing :: ops[i].id
  }

  // The main theorem on grouping: within every category and risk tier, the unblocked groups are
  // the kept opportunities in rank order, cut into runs of three.
  lemma {:induction false} PlacedChunked(blocked: Opportunity -> bool, existing: set<string>, ops: seq<Opportunity>)
    requires FreshDistinct(existing, ops)
    ensures var st := Placed(blocked, existing, ops);
            GroupsOk(blocked, st, FreshIds(existing, ops)) && Chunked(blocked, st, Kept(blocked, existing, ops))
  {
    if ops != [] {
      var init, o := ops[..|ops| - 1], ops[|ops| - 1];
      PlacedChunked(blocked, existing, init);
      var st, ids := Placed(blocked, existing, init), FreshIds(existing, init);
      assert FreshIds(existing, ops) == if o.id in existing then ids else ids + {o.id};
      if o.id !in existing {
        PlaceOk(blocked, st, ids, o);
        PlaceChunked(blocked, st, ids, Kept(blocked, existing, init), o);
      }
    }
  }

  // ---- Consequences --------------------------------------------------------------------------

  // No two members of unblocked groups, of one group or of two, share a path.
  lemma {:induction false} UnblockedGroupsDisjoint(blocked: Opportunity -> bool, existing: set<string>,
        ops: seq<Opportunity>, g: Group, h: Group, a: Opportunity, b: Opportunity)
    requires FreshDistinct(existing, ops)
    requires var st := Placed(blocked, existing, ops);
             && g in st.groups && !GroupBlocked(blocked, st.forced, g) && a in g
             && h in st.groups && !GroupBlocked(blocked, st.forced, h) && b in h
    requires a != b
    ensures !SharesPath(a, b)
  {
    var st, ids, kept := Placed(blocked, existing, ops), FreshIds(existing, ops), Kept(blocked, existing, ops);
    PlacedChunked(blocked, existing, ops);
    MemberIsKept(blocked, st, ids, kept, g, a);
    MemberIsKept(blocked, st, ids, kept, h, b);
    KeptDisjoint(blocked, existing, ops);
    var i :| 0 <= i < |kept| && kept[i] == a;
    var j :| 0 <= j < |kept| && kept[j] == b;
    assert i < j ==> !SharesPath(kept[i], kept[j]);
    assert j < i ==> !SharesPath(kept[j], kept[i]);
    assert SharesPath(a, b) == SharesPath(b, a);
  }

  // A group is blocked only together with its single member.
  lemma {:induction false} BlockedGroupIsSingle(blocked: Opportunity -> bool, existing: set<string>,
        ops: seq<Opportunity>, g: Group)
    requires FreshDistinct(existing, ops)
    requires g in Placed(blocked, existing, ops).groups
               && GroupBlocked(blocked, Placed(blocked, existing, ops).forced, g)
    ensures |g| == 1
  {
    var init, o := ops[..|ops| - 1], ops[|ops| - 1];
    var st, r := Placed(blocked, existing, init), Placed(blocked, existing, ops);
    PlacedChunked(blocked, existing, init);
    assert o.id !in existing ==> o.id !in FreshIds(existing, init);
    var k :| 0 <= k < |r.groups| && r.groups[k] == g;
    if k < |st.groups| && st.groups[k] == g {
      assert g[0] in g;
      BlockedGroupIsSingle(blocked, existing, init, g);
    }
  }

  function Fresh(existing: set<string>, ops: seq<Opportunity>): seq<Opportunity> {
    if ops == [] then []
    else Fresh(existing, ops[..|ops| - 1]) + if ops[|ops| - 1].id in existing then [] else [ops[|ops| - 1]]
  }

  lemma {:induction false} FlattenUpdate(gs: seq<Group>, i: nat, o: Opportunity)
    requires i < |gs|
    ensures multiset(Flatten(gs[i := gs[i] + [o]])) == multiset(Flatten(gs)) + multiset{o}
  {
    var after := gs[i := gs[i] + [o]];
    if i < |gs| - 1 {
      FlattenUpdate(gs[..|gs| - 1], i, o);
      assert after[..|after| - 1] == gs[..|gs| - 1][i := gs[i] + [o]];
    } else {
      assert after[..|after| - 1] == gs[..|gs| - 1];
    }
  }

  // Every opportunity not linked yet lands in exactly one group, and nothing else does.
  lemma {:induction false} EveryFreshLandsOnce(blocked: Opportunity -> bool, existing: set<string>,
        ops: seq<Opportunity>)
    ensures multiset(Flatten(Placed(blocked, existing, ops).groups)) == multiset(Fresh(existing, ops))
  {
    if ops != [] {
      var init, o := ops[..|ops| - 1], ops[|ops| - 1];
      EveryFreshLandsOnce(blocked, existing, init);
      var st, r := Placed(blocked, existing, init), Placed(blocked, existing, ops);
      if o.id !in existing {
        if |r.groups| == |st.groups| {
          FlattenUpdate(st.groups, FirstFit(blocked, st, o, 0), o);
        } else {
          assert r.groups[..|st.groups|] == st.groups;
        }
      }
    }
  }

  // First fit makes ceil(n / 3) groups of a class with n kept opportunities, all but the last of
  // them full.
  lemma {:induction false} ClassGroupCount(blocked: Opportunity -> bool, existing: set<string>, ops: seq<Opportunity>,
        category: string, tier: string)
    requires FreshDistinct(existing, ops)
    ensures var st := Placed(blocked, existing, ops);
            var n := |OfClass(Kept(blocked, existing, ops), category, tier)|;
            var cs := ClassGroups(blocked, st.forced, st.groups, category, tier);
            && |cs| == (n + GROUP_SIZE_LIMIT - 1) / GROUP_SIZE_LIMIT
            && forall i :: 0 <= i < |cs| - 1 ==> |cs[i]| == GROUP_SIZE_LIMIT
  {
    PlacedChunked(blocked, existing, ops);
    ChunksShape(OfClass(Kept(blocked, existing, ops), category, tier));
    var st := Placed(blocked, existing, ops);
    assert ClassGroups(blocked, st.forced, st.groups, category, tier)
        == Chunks(OfClass(Kept(blocked, existing, ops), category, tier));
  }

  // No way of splitting the same opportunities into groups of at most three needs fewer.
  lemma {:induction false} NoFewerGroups(gs: seq<Group>, n: nat)
    requires |Flatten(gs)| == n && forall i :: 0 <= i < |gs| ==> |gs[i]| <= GROUP_SIZE_LIMIT
    ensures |gs| >= (n + GROUP_SIZE_LIMIT - 1) / GROUP_SIZE_LIMIT
  {
    if gs != [] {
      NoFewerGroups(gs[..|gs| - 1], |Flatten(gs[..|gs| - 1])|);
    }
  }
}
