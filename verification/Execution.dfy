/** The execution of approved plans, step by step. */
module Execution {
  // Several workers share the plan rows and one GitHub repository, and may die between any two calls.
  //
  // The state machine moves one database or GitHub call at a time, in any interleaving.  What it
  // takes for granted is visible in `Enabled`: a worker acts only within the stale timeout of its
  // claim; marker files on the default branch and on branches made by others name no unfinished
  // plan; nobody closes a pull request, opens one from a plan's branch, or deletes a branch.

  import opened Options
  import opened Gate
  import BranchNames

  type PlanId(==, !new)
  type WorkerId(==, !new)

  // Marker files (by path) and other files of a branch.
  datatype Tree = Tree(markers: map<string, PlanId>, files: map<string, string>)

  // `creator` is the plan that made the branch, if any; `writers` the plans that wrote to it.
  datatype Branch = Branch(creator: Option<PlanId>, tree: Tree, writers: set<PlanId>)

  datatype PullRequest = PullRequest(head: string, author: PlanId)

  datatype Row = Row(planned: bool, session: string, status: Status, updatedAt: int, branch: string, pr: Option<nat>)

  // What does not change about a plan.
  datatype Spec = Spec(isDocs: bool, paths: seq<string>)

  datatype Pc =
    | Begun
    | GotBase(base: Tree)
    | Choosing(k: nat, siblings: set<string>, base: Tree)
    | Checking(k: nat, siblings: set<string>, base: Tree)
    | Persisting(branch: string)
    | Marking(branch: string)
    | Fixing(branch: string, n: nat, changed: bool)
    | Writing(branch: string, n: nat, content: string)
    | Opening(branch: string)
    | Finding(branch: string)
    | Saving(branch: string, pr: nat)
    | Failing

  // `preferred` is the branch name read when the plan was claimed.
  datatype Worker = Worker(plan: PlanId, claimedAt: int, preferred: string, pc: Pc)

  datatype State = State(
    now: int, rows: map<PlanId, Row>, workers: map<WorkerId, Worker>,
    branches: map<string, Branch>, prs: seq<PullRequest>, base: Tree)

  // The fixed data of a run: the plans, and the documentation note as a function of the plan and
  // the file it goes into.
  datatype World = World(specs: map<PlanId, Spec>, note: (PlanId, string) -> string)

  datatype Event =
    | Tick(to: int)
    | NewPlan(plan: PlanId, session: string, name: string)
    | Claim(worker: WorkerId, plan: PlanId)
    | Act(worker: WorkerId, authored: Option<string>)
    | Error(worker: WorkerId)
    | Crash(worker: WorkerId)
    | MoveBase(tree: Tree)
    | ForeignBranch(name: string, tree: Tree)

  const BRANCH_COLLISION_ATTEMPTS := 10

  function BranchCandidate(preferred: string, k: nat): string {
    if k == 0 then preferred else BranchNames.Candidate(preferred, k + 1)
  }

  function MarkerPath(branch: string): string {
    ".gardener/plans/" + DashSlashes(branch) + ".md"
  }

  function DashSlashes(s: string): string {
    if s == "" then "" else DashSlashes(s[..|s| - 1]) + [if s[|s| - 1] == '/' then '-' else s[|s| - 1]]
  }

  // The plan named by the branch's marker file, if there is one.
  function Owner(name: string, tree: Tree): Option<PlanId> {
    if MarkerPath(name) in tree.markers then Some(tree.markers[MarkerPath(name)]) else None
  }

  function SiblingNames(s: State, p: PlanId): set<string>
    requires p in s.rows
  {
    set q | q in s.rows && q != p && s.rows[q].planned && s.rows[q].session == s.rows[p].session :: s.rows[q].branch
  }

  predicate HasPr(s: State, head: string) {
    exists i :: 0 <= i < |s.prs| && s.prs[i].head == head
  }

  function FindPr(prs: seq<PullRequest>, head: string): (i: nat)
    ensures i <= |prs| && (i < |prs| <==> exists j :: 0 <= j < |prs| && prs[j].head == head)
    ensures i < |prs| ==> prs[i].head == head
  {
    if prs == [] then 0
    else
      var i := FindPr(prs[..|prs| - 1], head);
      if i < |prs| - 1 then i
      else if prs[|prs| - 1].head == head then |prs| - 1 else |prs|
  }

  // Nothing unfinished: not a plan of ours, or one that succeeded.
  predicate Settled(s: State, q: PlanId) {
    q in s.rows ==> s.rows[q].status == Succeeded
  }

  predicate CleanTree(s: State, tree: Tree) {
    forall path :: path in tree.markers ==> Settled(s, tree.markers[path])
  }

  predicate Unexpired(s: State, w: Worker) {
    s.now <= w.claimedAt + STALE_RUNNING_TIMEOUT
  }

  // The status part of the claim; the rest of its filter does not change during a run.
  predicate Claimable(row: Row, now: int) {
    row.planned && (row.status == Pending || row.status == Failed
      || (row.status == Running && row.updatedAt < now - STALE_RUNNING_TIMEOUT))
  }

  predicate WellTyped(world: World, s: State) {
    && s.rows.Keys == world.specs.Keys
    && (forall w :: w in s.workers ==> s.workers[w].plan in s.rows)
  }

  predicate Enabled(world: World, s: State, e: Event) {
    match e
    case Tick(to) => s.now <= to
    case NewPlan(p, session, name) =>
      && p in s.rows && !s.rows[p].planned
      && forall q :: q in s.rows && s.rows[q].planned && s.rows[q].session == session ==> s.rows[q].branch != name
    case Claim(w, p) => w !in s.workers && p in s.rows && Claimable(s.rows[p], s.now)
    case Act(w, _) => w in s.workers && Unexpired(s, s.workers[w])
    case Error(w) => w in s.workers && Unexpired(s, s.workers[w])
    case Crash(w) => w in s.workers
    case MoveBase(tree) => CleanTree(s, tree)
    case ForeignBranch(name, tree) => name !in s.branches && CleanTree(s, tree)
  }

  function At(s: State, w: WorkerId, pc: Pc): State
    requires w in s.workers
  {
    s.(workers := s.workers[w := s.workers[w].(pc := pc)])
  }

  function Finished(s: State, w: WorkerId, row: Row): State
    requires w in s.workers
  {
    s.(workers := s.workers - {w}, rows := s.rows[s.workers[w].plan := row])
  }

  function Written(s: State, name: string, tree: Tree, p: PlanId): State
    requires name in s.branches
  {
    s.(branches := s.branches[name := s.branches[name].(tree := tree, writers := s.branches[name].writers + {p})])
  }

  // What one call leaves behind: the shared state, and where the worker goes next, if anywhere.
  datatype Outcome = Outcome(rows: map<PlanId, Row>, branches: map<string, Branch>, prs: seq<PullRequest>,
      pc: Option<Pc>)

  function Goto(s: State, pc: Pc): Outcome {
    Outcome(s.rows, s.branches, s.prs, Some(pc))
  }

  // One call of the worker.
  function Call(world: World, s: State, w: WorkerId, authored: Option<string>): Outcome
    requires WellTyped(world, s) && w in s.workers
  {
    var worker := s.workers[w];
    var p := worker.plan;
    match worker.pc
    case Begun => Goto(s, GotBase(s.base))
    case GotBase(base) => Goto(s, Choosing(0, SiblingNames(s, p), base))
    case Choosing(k, siblings, base) =>
      var name := BranchCandidate(worker.preferred, k);
      if k >= BRANCH_COLLISION_ATTEMPTS then Goto(s, Failing)
      else if name in siblings then Goto(s, Choosing(k + 1, siblings, base))
      else if name in s.branches then Goto(s, Checking(k, siblings, base))
      else Goto(s, Persisting(name)).(branches := s.branches[name := Branch(Some(p), base, {})])
    case Checking(k, siblings, base) =>
      var name := BranchCandidate(worker.preferred, k);
      if name in s.branches && Owner(name, s.branches[name].tree) == Some(p) then Goto(s, Persisting(name))
      else Goto(s, Choosing(k + 1, siblings, base))
    case Persisting(name) =>
      if name == worker.preferred then Goto(s, Marking(name))
      else if name in SiblingNames(s, p) then Goto(s, Failing)
      else Goto(s, Marking(name)).(rows := s.rows[p := s.rows[p].(branch := name, updatedAt := s.now)])
    case Marking(name) =>
      if name !in s.branches then Goto(s, Failing)
      else
        var tree := s.branches[name].tree;
        Goto(Written(s, name, tree.(markers := tree.markers[MarkerPath(name) := p]), p), Fixing(name, 0, false))
    case Fixing(name, n, changed) =>
      var paths := world.specs[p].paths;
      if name !in s.branches then Goto(s, Failing)
      else if n >= |paths| then Goto(s, if changed then Opening(name) else Failing)
      else if paths[n] !in s.branches[name].tree.files then Goto(s, Fixing(name, n + 1, changed))
      else
        var content := s.branches[name].tree.files[paths[n]];
        var updated := if world.specs[p].isDocs then Some(world.note(p, content)) else authored;
        if updated == None || updated == Some(content) then Goto(s, Fixing(name, n + 1, changed))
        else Goto(s, Writing(name, n, updated.value))
    case Writing(name, n, content) =>
      if name !in s.branches || n >= |world.specs[p].paths| then Goto(s, Failing)
      else
        var tree := s.branches[name].tree;
        Goto(Written(s, name, tree.(files := tree.files[world.specs[p].paths[n] := content]), p),
            Fixing(name, n + 1, true))
    case Opening(name) =>
      if HasPr(s, name) then Goto(s, Finding(name))
      else Goto(s, Saving(name, |s.prs|)).(prs := s.prs + [PullRequest(name, p)])
    case Finding(name) =>
      Goto(s, if HasPr(s, name) then Saving(name, FindPr(s.prs, name)) else Failing)
    case Saving(name, pr) =>
      Outcome(s.rows[p := s.rows[p].(status := Succeeded, pr := Some(pr), updatedAt := s.now)], s.branches, s.prs, None)
    case Failing =>
      Outcome(s.rows[p := s.rows[p].(status := Failed, updatedAt := s.now)], s.branches, s.prs, None)
  }

  function Acted(world: World, s: State, w: WorkerId, authored: Option<string>): State
    requires WellTyped(world, s) && w in s.workers
  {
    var o := Call(world, s, w, authored);
    State(s.now, o.rows,
          if o.pc.Some? then s.workers[w := s.workers[w].(pc := o.pc.value)] else s.workers - {w},
          o.branches, o.prs, s.base)
  }

  function Next(world: World, s: State, e: Event): State
    requires WellTyped(world, s) && Enabled(world, s, e)
  {
    match e
    case Tick(to) => s.(now := to)
    case NewPlan(p, session, name) => s.(rows := s.rows[p := Row(true, session, Pending, s.now, name, None)])
    case Claim(w, p) =>
      var row := s.rows[p];
      s.(rows := s.rows[p := row.(status := Running, updatedAt := s.now)],
         workers := s.workers[w := Worker(p, s.now, row.branch, Begun)])
    case Act(w, authored) => Acted(world, s, w, authored)
    case Error(w) => At(s, w, Failing)
    case Crash(w) => s.(workers := s.workers - {w})
    case MoveBase(tree) => s.(base := tree)
    case ForeignBranch(name, tree) => s.(branches := s.branches[name := Branch(None, tree, {})])
  }
}
