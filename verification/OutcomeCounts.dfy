/** The outcome counts of the profile. */
module OutcomeCounts {
  // Recounted from the log for the rendered profile, and why the profile's lists agree with them
  // whatever order the outcomes were delivered in.

  import opened Options
  import opened Learning
  import opened Text

  // A dictionary in insertion order.
  type Tally = seq<(string, nat)>

  function IndexOf(t: Tally, key: string): (r: Option<nat>)
    ensures r.Some? ==> r.value < |t| && t[r.value].0 == key
    ensures r.None? ==> forall i {:trigger t[i]} :: 0 <= i < |t| ==> t[i].0 != key
  {
    if t == [] then None
    else if t[|t| - 1].0 == key then Some(|t| - 1)
    else IndexOf(t[..|t| - 1], key)
  }

  function Bump(t: Tally, key: string): Tally {
    match IndexOf(t, key)
    case Some(i) => t[i := (key, t[i].1 + 1)]
    case None => t + [(key, 1)]
  }

  function Keys(t: Tally): (r: seq<string>)
    ensures |r| == |t|
  {
    seq(|t|, i requires 0 <= i < |t| => t[i].0)
  }

  predicate Counts(e: Entry, b: Bucket) {
    BucketOf(e.outcome) == Some(b) && e.category != ""
  }

  function Recount(log: seq<Entry>, b: Bucket): Tally {
    if log == [] then []
    else
      var t, e := Recount(log[..|log| - 1], b), log[|log| - 1];
      if Counts(e, b) then Bump(t, e.category) else t
  }

  method CountOutcomes(log: seq<Entry>) returns (accepted: Tally, rejected: Tally, reverted: Tally)
    ensures accepted == Recount(log, AcceptedCategories)
    ensures rejected == Recount(log, RejectedCategories)
    ensures reverted == Recount(log, RevertedCategories)
  {
    accepted, rejected, reverted := [], [], [];
    var i := 0;
    while i < |log|
      invariant 0 <= i <= |log|
      invariant accepted == Recount(log[..i], AcceptedCategories)
      invariant rejected == Recount(log[..i], RejectedCategories)
      invariant reverted == Recount(log[..i], RevertedCategories)
    {
      var e := log[i];
      assert log[..i + 1][..i] == log[..i];
      i := i + 1;
      if e.category == "" { continue; }
      match BucketOf(e.outcome) {
        case Some(AcceptedCategories) => accepted := Bump(accepted, e.category);
        case Some(RejectedCategories) => rejected := Bump(rejected, e.category);
        case Some(RevertedCategories) => reverted := Bump(reverted, e.category);
        case None =>
      }
    }
    assert log[..i] == log;
  }

  lemma {:induction false} BumpKeys(t: Tally, key: string)
    ensures Keys(Bump(t, key)) == AppendUnique(Keys(t), key)
  {
    match IndexOf(t, key)
    case Some(i) => assert Keys(t)[i] == key;
    case None =>
  }

  lemma {:induction false} RecountAppend(log: seq<Entry>, e: Entry, b: Bucket)
    ensures Recount(log + [e], b) == if Counts(e, b) then Bump(Recount(log, b), e.category) else Recount(log, b)
  {
    assert (log + [e])[..|log|] == log;
  }

  // ---- Deliveries ------------------------------------------------------------------------------

  // A webhook about a plan, with an outcome that may not be a known one.
  datatype Delivery = Delivery(plan: string, outcome: string)

  // The plans a repository has: category and paths do not change once a plan exists.
  type Catalogue = string -> Plan

  function Deliver(plans: Catalogue, p: Profile, d: Delivery): Profile {
    match Parse(d.outcome)
    case None => p
    case Some(o) => Record(p, d.plan, plans(d.plan), o)
  }

  function Run(plans: Catalogue, ds: seq<Delivery>): Profile {
    if ds == [] then EMPTY else Deliver(plans, Run(plans, ds[..|ds| - 1]), ds[|ds| - 1])
  }

  // The known (plan, outcome) pairs that were delivered at all.
  function Delivered(ds: seq<Delivery>): set<(string, Outcome)> {
    if ds == [] then {}
    else
      var rest, d := Delivered(ds[..|ds| - 1]), ds[|ds| - 1];
      match Parse(d.outcome)
      case None => rest
      case Some(o) => rest + {(d.plan, o)}
  }

  function Recorded(log: seq<Entry>): set<(string, Outcome)> {
    if log == [] then {} else Recorded(log[..|log| - 1]) + {(log[|log| - 1].plan, log[|log| - 1].outcome)}
  }

  lemma {:induction false} RecordedIff(log: seq<Entry>, plan: string, o: Outcome)
    ensures AlreadyRecorded(log, plan, o) <==> (plan, o) in Recorded(log)
  {
    if log != [] {
      var init := log[..|log| - 1];
      RecordedIff(init, plan, o);
      if AlreadyRecorded(init, plan, o) {
        var i :| 0 <= i < |init| && init[i].plan == plan && init[i].outcome == o;
        assert log[i] == init[i];
      }
      if i :| 0 <= i < |log| && log[i].plan == plan && log[i].outcome == o && i < |init| {
        assert init[i] == log[i];
      }
    }
  }

  lemma {:induction false} RecordedAppend(log: seq<Entry>, e: Entry)
    ensures Recorded(log + [e]) == Recorded(log) + {(e.plan, e.outcome)}
  {
    assert (log + [e])[..|log|] == log;
  }

  // ---- What a profile says, as a function of the set of recorded pairs ---------------------------

  ghost function CategoriesOf(plans: Catalogue, pairs: set<(string, Outcome)>, b: Bucket): set<string> {
    set x | x in pairs && BucketOf(x.1) == Some(b) && Category(plans(x.0)) != "" :: Category(plans(x.0))
  }

  ghost function ProtectedOf(plans: Catalogue, pairs: set<(string, Outcome)>): set<string> {
    set x, path | x in pairs && x.1 == Reverted && path in plans(x.0).changedPaths :: path
  }

  ghost function NotesOf(plans: Catalogue, pairs: set<(string, Outcome)>): set<string> {
    set x | x in pairs && x.1 == Edited :: EditNote(Category(plans(x.0)))
  }

  ghost function PairsIn(plans: Catalogue, pairs: set<(string, Outcome)>, b: Bucket, category: string): set<(string,
        Outcome)> {
    set x | x in pairs && BucketOf(x.1) == Some(b) && Category(plans(x.0)) == category
  }

  ghost function Elements<T>(s: seq<T>): set<T> {
    set x | x in s
  }

  ghost function Paths(patterns: seq<(string, string)>): set<string> {
    set x | x in patterns :: x.0
  }

  function CountOf(t: Tally, category: string): nat {
    match IndexOf(t, category)
    case Some(i) => t[i].1
    case None => 0
  }

  // Every list of the profile follows from the recorded pairs, and the counts do.
  ghost predicate Follows(plans: Catalogue, p: Profile, pairs: set<(string, Outcome)>) {
    && Elements(p.accepted) == CategoriesOf(plans, pairs, AcceptedCategories)
    && Elements(p.rejected) == CategoriesOf(plans, pairs, RejectedCategories)
    && Elements(p.reverted) == CategoriesOf(plans, pairs, RevertedCategories)
    && Paths(p.patterns) == ProtectedOf(plans, pairs)
    && Elements(p.preferences) == NotesOf(plans, pairs)
  }

  ghost predicate CountsFollow(plans: Catalogue, log: seq<Entry>, pairs: set<(string, Outcome)>) {
    forall b, c {:trigger PairsIn(plans, pairs, b, c)} :: c != "" ==>
        CountOf(Recount(log, b), c) == |PairsIn(plans, pairs, b, c)|
  }

  // The category lists are the keys of the recount, in order.
  predicate KeysAgree(p: Profile) {
    && p.accepted == Keys(Recount(p.log, AcceptedCategories))
    && p.rejected == Keys(Recount(p.log, RejectedCategories))
    && p.reverted == Keys(Recount(p.log, RevertedCategories))
  }

  // One new outcome keeps the lists and the recount in step.
  lemma {:induction false} LearnKeepsKeys(p: Profile, id: string, plan: Plan, o: Outcome)
    requires KeysAgree(p)
    ensures KeysAgree(Learn(p, id, plan, o))
  {
    var e := Entry(id, o, Category(plan));
    forall b: Bucket
      ensures Keys(Recount(p.log + [e], b)) == Bucketed(Keys(Recount(p.log, b)), b, o, e.category)
    {
      RecountAppend(p.log, e, b);
      BumpKeys(Recount(p.log, b), e.category);
    }
  }

  // At every point of every delivery sequence.
  lemma {:induction false} KeysAlwaysAgree(plans: Catalogue, ds: seq<Delivery>)
    ensures KeysAgree(Run(plans, ds))
  {
    if ds == [] {
      assert EMPTY.log == [];
    } else {
      var p, d := Run(plans, ds[..|ds| - 1]), ds[|ds| - 1];
      KeysAlwaysAgree(plans, ds[..|ds| - 1]);
      if Parse(d.outcome).Some? { LearnKeepsKeys(p, d.plan, plans(d.plan), Parse(d.outcome).value); }
      hide Learn, KeysAgree, Parse;
    }
  }

  // ---- One step ----------------------------------------------------------------------------------

  lemma {:induction false} ElementsAppend(values: seq<string>, v: string)
    ensures Elements(AppendUnique(values, v)) == Elements(values) + {v}
  {
  }

  lemma {:induction false} PathsAppend(patterns: seq<(string, string)>, paths: seq<string>, reason: string)
    ensures Paths(AppendPatterns(patterns, paths, reason)) == Paths(patterns) + Elements(paths)
  {
    if paths != [] {
      var before, path := AppendPatterns(patterns, paths[..|paths| - 1], reason), paths[|paths| - 1];
      PathsAppend(patterns, paths[..|paths| - 1], reason);
      assert Elements(paths) == Elements(paths[..|paths| - 1]) + {path} by {
        assert paths == paths[..|paths| - 1] + [path];
      }
      PathsOne(before, path, reason);
      assert AppendPatterns(patterns, paths, reason) == if HasPattern(before, path) then before
          else before + [(path, reason)];
      hide AppendPatterns, HasPattern, Paths, Elements;
    }
  }

  lemma {:induction false} PathsOne(before: seq<(string, string)>, path: string, reason: string)
    ensures HasPattern(before, path) ==> path in Paths(before)
    ensures Paths(before + [(path, reason)]) == Paths(before) + {path}
  {
    var after := before + [(path, reason)];
    assert after[|before|].0 == path;
    forall x | x in Paths(before)
      ensures x in Paths(after)
    {
      var y :| y in before && y.0 == x;
      assert y in after;
    }
    if HasPattern(before, path) {
      var i :| 0 <= i < |before| && before[i].0 == path;
      assert before[i] in before;
    }
  }

  lemma {:induction false} LearnFollows(plans: Catalogue, p: Profile, pairs: set<(string, Outcome)>, id: string,
        o: Outcome)
    requires Follows(plans, p, pairs)
    ensures Follows(plans, Learn(p, id, plans(id), o), pairs + {(id, o)})
  {
    var c, x := Category(plans(id)), (id, o);
    ElementsAppend(p.accepted, c);
    ElementsAppend(p.rejected, c);
    ElementsAppend(p.reverted, c);
    ElementsAppend(p.preferences, EditNote(c));
    PathsAppend(p.patterns, plans(id).changedPaths, RevertReason(c));
    SetsGrow(plans, pairs, x);
    hide Elements, Paths, CategoriesOf, ProtectedOf, NotesOf, AppendUnique, AppendPatterns, Category, EditNote,
        RevertReason;
  }

  lemma {:induction false} SetsGrow(plans: Catalogue, pairs: set<(string, Outcome)>, x: (string, Outcome))
    ensures forall b: Bucket :: CategoriesOf(plans, pairs + {x}, b)
              == CategoriesOf(plans, pairs, b)
                  + (if BucketOf(x.1) == Some(b) && Category(plans(x.0)) != "" then {Category(plans(x.0))} else {})
    ensures ProtectedOf(plans, pairs + {x})
              == ProtectedOf(plans, pairs) + (if x.1 == Reverted then Elements(plans(x.0).changedPaths) else {})
    ensures NotesOf(plans, pairs + {x})
              == NotesOf(plans, pairs) + (if x.1 == Edited then {EditNote(Category(plans(x.0)))} else {})
  {
    hide Category, EditNote;
    forall b: Bucket
      ensures CategoriesOf(plans, pairs + {x}, b)
           == CategoriesOf(plans, pairs, b)
               + (if BucketOf(x.1) == Some(b) && Category(plans(x.0)) != "" then {Category(plans(x.0))} else {})
    {
    }
  }

  lemma {:induction false} BumpCount(t: Tally, key: string, c: string)
    requires Distinct(t)
    ensures Distinct(Bump(t, key)) && CountOf(Bump(t, key), c) == CountOf(t, c) + if c == key then 1 else 0
  {
    var i, j, u := IndexOf(t, key), IndexOf(t, c), Bump(t, key);
    var at := if i.Some? then i.value else |t|;
    assert u[at].0 == key && u[at].1 == CountOf(t, key) + 1;
    if c == key {
      CountAt(u, c);
    } else if j.Some? {
      assert u[j.value].0 == c && u[j.value].1 == CountOf(t, c);
      CountAt(u, c);
    } else {
      assert forall k {:trigger u[k]} :: 0 <= k < |u| ==> u[k] == (if k == at then u[at] else t[k]);
    }
  }

  ghost predicate Distinct(t: Tally) {
    forall i, j {:trigger t[i].0, t[j].0} :: 0 <= i < |t| && 0 <= j < |t| && t[i].0 == t[j].0 ==> i == j
  }

  lemma {:induction false} CountAt(t: Tally, c: string)
    requires Distinct(t)
    ensures forall i {:trigger t[i].0} :: 0 <= i < |t| && t[i].0 == c ==> CountOf(t, c) == t[i].1
  {
  }

  lemma {:induction false} RecountDistinct(log: seq<Entry>, b: Bucket)
    ensures Distinct(Recount(log, b))
  {
    if log != [] {
      RecountDistinct(log[..|log| - 1], b);
      BumpCount(Recount(log[..|log| - 1], b), log[|log| - 1].category, "");
    }
  }

  lemma {:induction false} CountsNext(plans: Catalogue, log: seq<Entry>, pairs: set<(string, Outcome)>, id: string,
        o: Outcome)
    requires CountsFollow(plans, log, pairs) && (id, o) !in pairs
    ensures CountsFollow(plans, log + [Entry(id, o, Category(plans(id)))], pairs + {(id, o)})
  {
    var e, x := Entry(id, o, Category(plans(id))), (id, o);
    forall b: Bucket, c: string | c != ""
      ensures CountOf(Recount(log + [e], b), c) == |PairsIn(plans, pairs + {x}, b, c)|
    {
      RecountAppend(log, e, b);
      RecountDistinct(log, b);
      BumpCount(Recount(log, b), e.category, c);
      PairsGrow(plans, pairs, x, b, c);
      assert CountOf(Recount(log, b), c) == |PairsIn(plans, pairs, b, c)|;
      hide Recount, CountOf, PairsIn, Category;
    }
  }

  lemma {:induction false} PairsGrow(plans: Catalogue, pairs: set<(string, Outcome)>, x: (string, Outcome), b: Bucket,
        c: string)
    requires x !in pairs
    ensures |PairsIn(plans, pairs + {x}, b, c)|
         == |PairsIn(plans, pairs, b, c)| + if BucketOf(x.1) == Some(b) && Category(plans(x.0)) == c then 1 else 0
  {
    hide Category;
    var old', new' := PairsIn(plans, pairs, b, c), PairsIn(plans, pairs + {x}, b, c);
    if BucketOf(x.1) == Some(b) && Category(plans(x.0)) == c {
      assert new' == old' + {x};
    } else {
      assert new' == old';
    }
  }

  // ---- Convergence -------------------------------------------------------------------------------

  lemma {:induction false} RunFollows(plans: Catalogue, ds: seq<Delivery>)
    ensures var p := Run(plans, ds);
            Recorded(p.log) == Delivered(ds) && Follows(plans, p, Delivered(ds))
                && CountsFollow(plans, p.log, Delivered(ds))
  {
    if ds == [] {
      EmptyFollows(plans);
    } else {
      var init, d := ds[..|ds| - 1], ds[|ds| - 1];
      RunFollows(plans, init);
      var p := Run(plans, init);
      if Parse(d.outcome).Some? {
        var o := Parse(d.outcome).value;
        RecordedIff(p.log, d.plan, o);
        if (d.plan, o) in Delivered(init) {
          assert Delivered(init) + {(d.plan, o)} == Delivered(init);
        } else {
          LearnFollows(plans, p, Delivered(init), d.plan, o);
          CountsNext(plans, p.log, Delivered(init), d.plan, o);
          RecordedAppend(p.log, Entry(d.plan, o, Category(plans(d.plan))));
        }
      }
      hide Follows, CountsFollow, Parse, Category, Recorded, AlreadyRecorded, Bucketed;
    }
  }

  lemma {:induction false} EmptyFollows(plans: Catalogue)
    ensures Recorded(EMPTY.log) == {} && Follows(plans, EMPTY, {}) && CountsFollow(plans, EMPTY.log, {})
  {
    forall b: Bucket, c: string
      ensures CountOf(Recount([], b), c) == |PairsIn(plans, {}, b, c)|
    {
      assert PairsIn(plans, {}, b, c) == {};
    }
  }

  // ---- What was heard of a category ----------------------------------------------------------------

  // A delivery with one of these outcomes for a plan of the category.
  ghost predicate Heard(plans: Catalogue, ds: seq<Delivery>, outcomes: set<string>, category: string) {
    exists d {:trigger d in ds} :: d in ds && d.outcome in outcomes && Strip(plans(d.plan).category) == category
  }

  predicate HeardOf(ds: seq<Delivery>, plan: string, outcome: string) {
    Delivery(plan, outcome) in ds
  }

  lemma {:induction false} DeliveredIff(ds: seq<Delivery>, plan: string, o: Outcome)
    ensures (plan, o) in Delivered(ds) <==> HeardOf(ds, plan, Name(o))
  {
    hide Parse, Name;
    if ds != [] {
      var init, d := ds[..|ds| - 1], ds[|ds| - 1];
      DeliveredIff(init, plan, o);
      assert ds == init + [d];
      ParseName(o);
      assert Parse(d.outcome) == Some(o) <==> d.outcome == Name(o);
      assert HeardOf(ds, plan, Name(o)) <==> HeardOf(init, plan, Name(o)) || d == Delivery(plan, Name(o));
    }
  }

  lemma {:induction false} HeardIff(plans: Catalogue, ds: seq<Delivery>, category: string, b: Bucket,
        outcomes: set<string>)
    requires forall o: Outcome :: BucketOf(o) == Some(b) <==> Name(o) in outcomes
    requires forall word :: word in outcomes ==> Parse(word).Some?
    ensures category in CategoriesOf(plans, Delivered(ds), b) <==>
              category != "" && Heard(plans, ds, outcomes, category)
  {
    hide Parse, Name, BucketOf, Strip, Delivered;
    if category in CategoriesOf(plans, Delivered(ds), b) {
      var x :| x in Delivered(ds) && BucketOf(x.1) == Some(b) && Category(plans(x.0)) == category;
      DeliveredIff(ds, x.0, x.1);
    }
    if category != "" && Heard(plans, ds, outcomes, category) {
      var d :| d in ds && d.outcome in outcomes && Strip(plans(d.plan).category) == category;
      var o := Parse(d.outcome).value;
      DeliveredIff(ds, d.plan, o);
      assert (d.plan, o) in Delivered(ds);
    }
  }

  lemma {:induction false} BucketWords(o: Outcome)
    ensures BucketOf(o) == Some(AcceptedCategories) <==> Name(o) in {"merged", "accepted"}
    ensures BucketOf(o) == Some(RejectedCategories) <==> Name(o) in {"rejected", "closed"}
    ensures BucketOf(o) == Some(RevertedCategories) <==> Name(o) in {"reverted"}
  {
    assert "accepted"[0] == 'a' && "merged"[0] == 'm' && "closed"[0] == 'c' && "edited"[0] == 'e' && "failed"[0] == 'f';
    assert |"rejected"| == 8 && |"reverted"| == 8 && "rejected"[2] == 'j' && "reverted"[2] == 'v'
        && "rejected"[0] == 'r'
        && "reverted"[0] == 'r';
  }

  // What a profile has learned, in terms of the deliveries: a category is accepted when one of its
  // plans was merged or accepted, rejected when one was rejected or closed, reverted when one was
  // reverted; a path is protected when a plan that changed it was reverted.
  lemma {:induction false} ProfileTells(plans: Catalogue, ds: seq<Delivery>)
    ensures var p := Run(plans, ds);
            && (forall c: string {:trigger c in p.accepted} ::
                  c in p.accepted <==> c != "" && Heard(plans, ds, {"merged", "accepted"}, c))
            && (forall c: string {:trigger c in p.rejected} ::
                  c in p.rejected <==> c != "" && Heard(plans, ds, {"rejected", "closed"}, c))
            && (forall c: string {:trigger c in p.reverted} ::
                  c in p.reverted <==> c != "" && Heard(plans, ds, {"reverted"}, c))
            && (forall path: string {:trigger path in Paths(p.patterns)} ::
                  path in Paths(p.patterns) <==>
                  exists plan {:trigger HeardOf(ds, plan, "reverted")} ::
                    HeardOf(ds, plan, "reverted") && path in plans(plan).changedPaths)
  {
    var p := Run(plans, ds);
    RunFollows(plans, ds);
    forall o: Outcome { BucketWords(o); }
    hide Run, Parse, BucketOf, Strip, Delivered, Heard, HeardOf, Name;
    ListTells(plans, ds, p.accepted, AcceptedCategories, {"merged", "accepted"});
    ListTells(plans, ds, p.rejected, RejectedCategories, {"rejected", "closed"});
    ListTells(plans, ds, p.reverted, RevertedCategories, {"reverted"});
    PathsTell(plans, ds, p);
  }

  lemma {:induction false} ListTells(plans: Catalogue, ds: seq<Delivery>, list: seq<string>, b: Bucket,
        outcomes: set<string>)
    requires Elements(list) == CategoriesOf(plans, Delivered(ds), b)
    requires forall o: Outcome :: BucketOf(o) == Some(b) <==> Name(o) in outcomes
    requires outcomes <= {"merged", "accepted", "rejected", "closed", "reverted"}
    ensures forall c: string {:trigger c in list} :: c in list <==> c != "" && Heard(plans, ds, outcomes, c)
  {
    forall word | word in outcomes
      ensures Parse(word).Some?
    {
    }
    hide CategoriesOf, Heard, Delivered, Parse, Name, BucketOf;
    forall c: string
      ensures c in list <==> c != "" && Heard(plans, ds, outcomes, c)
    {
      HeardIff(plans, ds, c, b, outcomes);
      assert c in list <==> c in Elements(list);
    }
  }

  lemma {:induction false} PathsTell(plans: Catalogue, ds: seq<Delivery>, p: Profile)
    requires Paths(p.patterns) == ProtectedOf(plans, Delivered(ds))
    ensures forall path: string {:trigger path in Paths(p.patterns)} ::
              path in Paths(p.patterns) <==>
              exists plan {:trigger HeardOf(ds, plan, "reverted")} ::
                HeardOf(ds, plan, "reverted") && path in plans(plan).changedPaths
  {
    hide Paths, Delivered, HeardOf;
    forall plan
      ensures (plan, Reverted) in Delivered(ds) <==> HeardOf(ds, plan, "reverted")
    {
      DeliveredIff(ds, plan, Reverted);
    }
  }

  // Two delivery sequences with the same known pairs, in any order and with any repeats and any
  // unknown outcomes in between, teach the same categories, protected paths, notes and counts.
  lemma {:induction false} DeliveriesConverge(plans: Catalogue, ds: seq<Delivery>, es: seq<Delivery>)
    requires Delivered(ds) == Delivered(es)
    ensures var p, q := Run(plans, ds), Run(plans, es);
            && Elements(p.accepted) == Elements(q.accepted) && Elements(p.rejected) == Elements(q.rejected)
            && Elements(p.reverted) == Elements(q.reverted) && Paths(p.patterns) == Paths(q.patterns)
            && Elements(p.preferences) == Elements(q.preferences)
    ensures forall b: Bucket, c: string {:trigger PairsIn(plans, Delivered(ds), b, c)} :: c != "" ==>
              CountOf(Recount(Run(plans, ds).log, b), c) == CountOf(Recount(Run(plans, es).log, b), c)
  {
    RunFollows(plans, ds);
    RunFollows(plans, es);
    hide Run, Delivered, Recorded, Elements, Paths, Recount, CountOf;
    forall b: Bucket, c: string | c != ""
      ensures CountOf(Recount(Run(plans, ds).log, b), c) == CountOf(Recount(Run(plans, es).log, b), c)
    {
      assert CountOf(Recount(Run(plans, es).log, b), c) == |PairsIn(plans, Delivered(es), b, c)|;
      assert CountOf(Recount(Run(plans, ds).log, b), c) == |PairsIn(plans, Delivered(ds), b, c)|;
    }
  }

  // A delivery that was seen before changes nothing.
  lemma {:induction false} RedeliveryChangesNothing(plans: Catalogue, ds: seq<Delivery>, d: Delivery)
    requires d in ds
    ensures Run(plans, ds + [d]) == Run(plans, ds)
  {
    assert (ds + [d])[..|ds|] == ds;
    RunFollows(plans, ds);
    DeliveredHas(ds, d);
    if Parse(d.outcome).Some? { RecordedIff(Run(plans, ds).log, d.plan, Parse(d.outcome).value); }
  }

  lemma {:induction false} DeliveredHas(ds: seq<Delivery>, d: Delivery)
    requires d in ds
    ensures Parse(d.outcome).Some? ==> (d.plan, Parse(d.outcome).value) in Delivered(ds)
  {
    hide Parse;
    if d != ds[|ds| - 1] {
      assert ds == ds[..|ds| - 1] + [ds[|ds| - 1]];
      DeliveredHas(ds[..|ds| - 1], d);
    }
  }

  // ---- The outcome that ended a plan -------------------------------------------------------------

  // A plan's ending is the last terminal outcome the log has for it.
  function Ending(log: seq<Entry>, plan: string): Option<Outcome> {
    if log == [] then None
    else
      var e := log[|log| - 1];
      if e.plan == plan && IsTerminal(e.outcome) then Some(e.outcome) else Ending(log[..|log| - 1], plan)
  }

  lemma {:induction false} EndingRecorded(log: seq<Entry>, plan: string)
    ensures Ending(log, plan).Some? ==>
              IsTerminal(Ending(log, plan).value) && (plan, Ending(log, plan).value) in Recorded(log)
    ensures Ending(log, plan).None? ==> forall o: Outcome {:trigger (plan, o)} :: IsTerminal(o) ==>
              (plan, o) !in Recorded(log)
  {
    if log != [] { EndingRecorded(log[..|log| - 1], plan); }
  }

  function Without(ds: seq<Delivery>, plan: string, o: Outcome): seq<Delivery> {
    if ds == [] then []
    else
      var rest, d := Without(ds[..|ds| - 1], plan, o), ds[|ds| - 1];
      if d.plan == plan && Parse(d.outcome) == Some(o) then rest else rest + [d]
  }

  lemma {:induction false} WithoutDelivered(ds: seq<Delivery>, plan: string, o: Outcome)
    ensures Delivered(Without(ds, plan, o)) == Delivered(ds) - {(plan, o)}
  {
    if ds != [] {
      var rest, d := Without(ds[..|ds| - 1], plan, o), ds[|ds| - 1];
      WithoutDelivered(ds[..|ds| - 1], plan, o);
      assert (rest + [d])[..|rest|] == rest;
      hide Parse;
    }
  }

  lemma {:induction false} ParseName(o: Outcome)
    ensures Parse(Name(o)) == Some(o)
  {
  }

  // The same deliveries with this outcome last.
  function EndingWith(ds: seq<Delivery>, plan: string, o: Outcome): seq<Delivery> {
    Without(ds, plan, o) + [Delivery(plan, Name(o))]
  }

  lemma {:induction false} EndsWith(plans: Catalogue, ds: seq<Delivery>, plan: string, o: Outcome)
    requires (plan, o) in Delivered(ds) && IsTerminal(o)
    ensures Delivered(EndingWith(ds, plan, o)) == Delivered(ds)
    ensures Ending(Run(plans, EndingWith(ds, plan, o)).log, plan) == Some(o)
  {
    var rest, d := Without(ds, plan, o), Delivery(plan, Name(o));
    WithoutDelivered(ds, plan, o);
    ParseName(o);
    RunFollows(plans, rest);
    assert (rest + [d])[..|rest|] == rest;
    var p := Run(plans, rest);
    RecordedIff(p.log, plan, o);
    assert Ending(p.log + [Entry(plan, o, Category(plans(plan)))], plan) == Some(o);
    hide Parse, Without, Recorded, Category, AlreadyRecorded;
    assert Delivered(rest) + {(plan, o)} == Delivered(ds);
  }

  ghost predicate OneEnding(pairs: set<(string, Outcome)>, plan: string) {
    forall o, o' {:trigger (plan, o), (plan, o')} ::
      (plan, o) in pairs && (plan, o') in pairs && IsTerminal(o) && IsTerminal(o') ==> o == o'
  }

  // How a plan ended does not depend on the order of the deliveries exactly when at most one of the
  // terminal outcomes was delivered for it: only then do all orders of the same pairs agree.
  lemma {:induction false} EndingOrderFreeIff(plans: Catalogue, ds: seq<Delivery>, plan: string)
    ensures OneEnding(Delivered(ds), plan) <==>
            forall es: seq<Delivery> {:trigger Run(plans, es)} :: Delivered(es) == Delivered(ds) ==>
              Ending(Run(plans, es).log, plan) == Ending(Run(plans, ds).log, plan)
  {
    if OneEnding(Delivered(ds), plan) {
      forall es: seq<Delivery> | Delivered(es) == Delivered(ds)
        ensures Ending(Run(plans, es).log, plan) == Ending(Run(plans, ds).log, plan)
      {
        SameEnding(plans, ds, es, plan);
      }
    } else {
      var o, o' :| (plan, o) in Delivered(ds) && (plan, o') in Delivered(ds) && IsTerminal(o) && IsTerminal(o')
          && o != o';
      EndsWith(plans, ds, plan, o);
      EndsWith(plans, ds, plan, o');
      hide *;
      assert Ending(Run(plans, EndingWith(ds, plan, o)).log, plan) != Ending(Run(plans, EndingWith(ds, plan, o')).log,
          plan);
    }
  }

  lemma {:induction false} SameEnding(plans: Catalogue, ds: seq<Delivery>, es: seq<Delivery>, plan: string)
    requires Delivered(es) == Delivered(ds) && OneEnding(Delivered(ds), plan)
    ensures Ending(Run(plans, es).log, plan) == Ending(Run(plans, ds).log, plan)
  {
    RunFollows(plans, ds);
    RunFollows(plans, es);
    EndingRecorded(Run(plans, ds).log, plan);
    EndingRecorded(Run(plans, es).log, plan);
    hide Run, Delivered, Recorded, Ending, Follows, CountsFollow;
  }

  // The plan's row says the same: each recorded outcome moves both.
  lemma {:induction false} RowAgrees(p: Profile, h: History, id: string, plan: Plan, o: Outcome, sha: string)
    requires h.ended == Ending(p.log, id)
    ensures var recorded := !AlreadyRecorded(p.log, id, o);
            Ending(Record(p, id, plan, o).log, id) == (if recorded then Remember(h, o, sha) else h).ended
    ensures var ended := Ending(Record(p, id, plan, o).log, id);
            if o in {Merged, Closed, Reverted}
                && !AlreadyRecorded(p.log, id, o) then ended == Some(o) else ended == h.ended
    ensures forall other: string {:trigger Ending(p.log, other)} :: other != id ==>
              Ending(Record(p, id, plan, o).log, other) == Ending(p.log, other)
  {
    var e := Entry(id, o, Category(plan));
    assert (p.log + [e])[..|p.log|] == p.log;
    hide Category, AlreadyRecorded;
  }
}
