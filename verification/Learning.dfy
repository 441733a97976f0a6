/**
 What a repository's profile learns from the outcomes of maintenance pull requests: an append-only
 log and the lists kept beside it, under redelivered and reordered webhooks.
 */
module Learning {
  import opened Options
  import opened Text

  datatype Outcome = Merged | Accepted | Rejected | Closed | Reverted | Edited | Failed

  function Name(o: Outcome): string {
    match o
    case Merged => "merged"
    case Accepted => "accepted"
    case Rejected => "rejected"
    case Closed => "closed"
    case Reverted => "reverted"
    case Edited => "edited"
    case Failed => "failed"
  }

  function Parse(s: string): (r: Option<Outcome>)
    ensures r.Some? ==> Name(r.value) == s
  {
    match s
    case "merged" => Some(Merged)
    case "accepted" => Some(Accepted)
    case "rejected" => Some(Rejected)
    case "closed" => Some(Closed)
    case "reverted" => Some(Reverted)
    case "edited" => Some(Edited)
    case "failed" => Some(Failed)
    case _ => None
  }

  datatype Bucket = AcceptedCategories | RejectedCategories | RevertedCategories

  function BucketOf(o: Outcome): Option<Bucket> {
    match o
    case Merged | Accepted => Some(AcceptedCategories)
    case Rejected | Closed => Some(RejectedCategories)
    case Reverted => Some(RevertedCategories)
    case Edited | Failed => None
  }

  // Outcomes that end a plan and refresh the analysis.
  predicate IsTerminal(o: Outcome) {
    o == Merged || o == Closed || o == Reverted
  }

  datatype Plan = Plan(category: string, changedPaths: seq<string>)

  function Category(plan: Plan): string {
    Strip(plan.category)
  }

  datatype Entry = Entry(plan: string, outcome: Outcome, category: string)

  datatype Profile = Profile(accepted: seq<string>, rejected: seq<string>, reverted: seq<string>,
                             patterns: seq<(string, string)>, preferences: seq<string>, log: seq<Entry>)

  const EMPTY := Profile([], [], [], [], [], [])

  function AppendUnique(values: seq<string>, value: string): seq<string> {
    if value in values then values else values + [value]
  }

  predicate HasPattern(patterns: seq<(string, string)>, path: string) {
    exists i {:trigger patterns[i]} :: 0 <= i < |patterns| && patterns[i].0 == path
  }

  // Protect the paths one after the other, each once.
  function AppendPatterns(patterns: seq<(string, string)>, paths: seq<string>, reason: string): seq<(string, string)> {
    if paths == [] then patterns
    else
      var before := AppendPatterns(patterns, paths[..|paths| - 1], reason);
      var path := paths[|paths| - 1];
      if HasPattern(before, path) then before else before + [(path, reason)]
  }

  function OrUnknown(category: string): string {
    if category == "" then "unknown" else category
  }

  function RevertReason(category: string): string {
    "Reverted gardener PR (category=" + OrUnknown(category) + ")."
  }

  function EditNote(category: string): string {
    "Humans edited gardener PRs for category '" + OrUnknown(category)
        + "'; review these changes before autonomous handling."
  }

  predicate AlreadyRecorded(log: seq<Entry>, plan: string, o: Outcome) {
    exists i {:trigger log[i]} :: 0 <= i < |log| && log[i].plan == plan && log[i].outcome == o
  }

  function Bucketed(values: seq<string>, b: Bucket, o: Outcome, category: string): seq<string> {
    if BucketOf(o) == Some(b) && category != "" then AppendUnique(values, category) else values
  }

  function Learn(p: Profile, id: string, plan: Plan, o: Outcome): Profile {
    var c := Category(plan);
    Profile(Bucketed(p.accepted, AcceptedCategories, o, c),
            Bucketed(p.rejected, RejectedCategories, o, c),
            Bucketed(p.reverted, RevertedCategories, o, c),
            if o == Reverted then AppendPatterns(p.patterns, plan.changedPaths, RevertReason(c)) else p.patterns,
            if o == Edited then AppendUnique(p.preferences, EditNote(c)) else p.preferences,
            p.log + [Entry(id, o, c)])
  }

  function Record(p: Profile, id: string, plan: Plan, o: Outcome): Profile {
    if AlreadyRecorded(p.log, id, o) then p else Learn(p, id, plan, o)
  }

  // The plan's own record of its outcomes.
  datatype History = History(outcomes: seq<Outcome>, ended: Option<Outcome>, mergeCommit: string)

  function Remember(h: History, o: Outcome, sha: string): History {
    History(h.outcomes + [o],
            if IsTerminal(o) then Some(o) else h.ended,
            if o == Merged && Strip(sha) != "" then Strip(sha) else h.mergeCommit)
  }

  class PlanRow {
    const id: string
    const plan: Plan
    var history: History

    constructor (id: string, plan: Plan)
      ensures this.id == id && this.plan == plan && history == History([], None, "")
    {
      this.id, this.plan := id, plan;
      history := History([], None, "");
    }
  }

  datatype Result = Unsupported | Result(recorded: bool, profileUpdated: bool)

  class GardenerProfile {
    var accepted: seq<string>
    var rejected: seq<string>
    var reverted: seq<string>
    var patterns: seq<(string, string)>
    var preferences: seq<string>
    var log: seq<Entry>

    constructor ()
      ensures Value() == EMPTY
    {
      accepted, rejected, reverted, patterns, preferences, log := [], [], [], [], [], [];
    }

    function Value(): Profile
      reads this
    {
      Profile(accepted, rejected, reverted, patterns, preferences, log)
    }

    method RecordOutcome(row: PlanRow, outcome: string, sha: string) returns (r: Result)
      modifies this, row`history
      ensures Parse(outcome).None? ==> r == Unsupported && Value() == old(Value()) && row.history == old(row.history)
      ensures Parse(outcome).Some? ==> Value() == Record(old(Value()), row.id, row.plan, Parse(outcome).value)
      ensures Parse(outcome).Some? ==>
                r.Result? && r.recorded == !AlreadyRecorded(old(log), row.id, Parse(outcome).value)
                && row.history == (if r.recorded then Remember(old(row.history), Parse(outcome).value, sha)
                     else old(row.history))
                && (r.profileUpdated <==> old(Value()).(log := []) != Value().(log := []))
    {
      var parsed := Parse(outcome);
      if parsed == None { return Unsupported; }
      var o, category := parsed.value, Category(row.plan);
      if AlreadyRecorded(log, row.id, o) { return Result(false, false); }
      row.history := Remember(row.history, o, sha);
      var changed := ApplyOutcome(row.plan, o, category);
      log := log + [Entry(row.id, o, category)];
      r := Result(true, changed);
    }

    method ApplyOutcome(plan: Plan, o: Outcome, category: string) returns (changed: bool)
      requires category == Category(plan)
      modifies this
      ensures log == old(log)
      ensures Value() == Learn(old(Value()), "", plan, o).(log := log)
      ensures changed <==> old(Value()) != Value()
    {
      var bucketed := AddCategory(o, category);
      var guarded := false;
      if o == Reverted { guarded := ProtectPaths(plan.changedPaths, RevertReason(category)); }
      var noted := false;
      if o == Edited && EditNote(category) !in preferences {
        preferences, noted := preferences + [EditNote(category)], true;
      }
      changed := bucketed || guarded || noted;
    }

    method AddCategory(o: Outcome, category: string) returns (changed: bool)
      modifies this`accepted, this`rejected, this`reverted
      ensures accepted == Bucketed(old(accepted), AcceptedCategories, o, category)
      ensures rejected == Bucketed(old(rejected), RejectedCategories, o, category)
      ensures reverted == Bucketed(old(reverted), RevertedCategories, o, category)
      ensures changed <==> (accepted, rejected, reverted) != old((accepted, rejected, reverted))
    {
      changed := false;
      if category != "" {
        match BucketOf(o) {
          case Some(AcceptedCategories) =>
            if category !in accepted { accepted, changed := accepted + [category], true; }
          case Some(RejectedCategories) =>
            if category !in rejected { rejected, changed := rejected + [category], true; }
          case Some(RevertedCategories) =>
            if category !in reverted { reverted, changed := reverted + [category], true; }
          case None =>
        }
      }
    }

    method ProtectPaths(paths: seq<string>, reason: string) returns (changed: bool)
      modifies this`patterns
      ensures patterns == AppendPatterns(old(patterns), paths, reason)
      ensures changed <==> patterns != old(patterns)
    {
      changed := false;
      var i := 0;
      while i < |paths|
        invariant 0 <= i <= |paths| && patterns == AppendPatterns(old(patterns), paths[..i], reason)
        invariant |old(patterns)| <= |patterns|
        invariant if changed then |old(patterns)| < |patterns| else patterns == old(patterns)
      {
        assert paths[..i + 1][..i] == paths[..i];
        if !HasPattern(patterns, paths[i]) { patterns, changed := patterns + [(paths[i], reason)], true; }
        i := i + 1;
      }
      assert paths[..i] == paths;
    }
  }
}
