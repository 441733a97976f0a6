/** What every step of the execution keeps. */
module ExecutionSafety {
  // ... and what follows for whole runs: one live worker per plan, SUCCEEDED is final, one pull
  // request per plan, and no branch is written by two plans.

  import opened Options
  import opened Gate
  import opened Policy
  import opened Execution

  // ---- The invariant -------------------------------------------------------------------------

  ghost predicate Live(s: State, w: WorkerId, p: PlanId) {
    w in s.workers && s.workers[w].plan == p && Unexpired(s, s.workers[w])
  }

  // A live worker holds its plan's row, alone.
  ghost predicate Leases(s: State) {
    && (forall w, p {:trigger Live(s, w, p)} :: Live(s, w, p) ==>
          p in s.rows && s.rows[p].planned && s.rows[p].status == Running
          && s.workers[w].claimedAt <= s.now && s.workers[w].claimedAt <= s.rows[p].updatedAt)
    && (forall w, v, p {:trigger Live(s, w, p), Live(s, v, p)} :: Live(s, w, p) && Live(s, v, p) ==> w == v)
  }

  ghost predicate RowsOk(s: State) {
    && (forall p {:trigger s.rows[p]} :: p in s.rows && !s.rows[p].planned ==> s.rows[p].status == Pending)
    && (forall p, q {:trigger s.rows[p], s.rows[q]} :: p in s.rows && q in s.rows && p != q
          && s.rows[p].planned && s.rows[q].planned && s.rows[p].session == s.rows[q].session
          ==> s.rows[p].branch != s.rows[q].branch)
  }

  ghost predicate Marked(s: State, name: string, p: PlanId) {
    name in s.branches && Owner(name, s.branches[name].tree) == Some(p)
  }

  // Only the creating plan wrote to the branch, and an unfinished plan's marker sits on the branch
  // that plan made and recorded.
  ghost predicate BranchOk(s: State, name: string)
    requires name in s.branches
  {
    && (forall q {:trigger q in s.branches[name].writers} :: q in s.branches[name].writers ==>
         s.branches[name].creator == Some(q))
    && (forall p {:trigger Marked(s, name, p)} :: Marked(s, name, p) && !Settled(s, p) ==>
          s.branches[name].creator == Some(p) && s.rows[p].planned && s.rows[p].branch == name)
  }

  ghost predicate BranchesOk(s: State) {
    forall name {:trigger BranchOk(s, name)} :: name in s.branches ==> BranchOk(s, name)
  }

  ghost predicate Unmarked(s: State, p: PlanId) {
    forall name {:trigger Marked(s, name, p)} :: !Marked(s, name, p)
  }

  ghost predicate Made(s: State, name: string, p: PlanId) {
    name in s.branches && s.branches[name].creator == Some(p)
  }

  ghost predicate Owned(s: State, name: string, p: PlanId) {
    Made(s, name, p) && p in s.rows && s.rows[p].branch == name && Marked(s, name, p)
  }

  ghost predicate WorkerOk(s: State, worker: Worker) {
    var p := worker.plan;
    p in s.rows &&
    match worker.pc
    case Begun => s.rows[p].branch == worker.preferred
    case GotBase(base) => s.rows[p].branch == worker.preferred && CleanTree(s, base)
    case Choosing(k, siblings, base) =>
      s.rows[p].branch == worker.preferred && CleanTree(s, base) && worker.preferred !in siblings
          && (k > 0 ==> Unmarked(s, p))
    case Checking(k, siblings, base) =>
      s.rows[p].branch == worker.preferred && CleanTree(s, base) && worker.preferred !in siblings
          && (k > 0 ==> Unmarked(s, p))
    case Persisting(name) =>
      Made(s, name, p) && (s.rows[p].branch == worker.preferred || s.rows[p].branch == name)
          && (name != worker.preferred ==> Unmarked(s, p))
    case Marking(name) => Made(s, name, p) && s.rows[p].branch == name
    case Fixing(name, _, _) => Owned(s, name, p)
    case Writing(name, _, _) => Owned(s, name, p)
    case Opening(name) => Owned(s, name, p)
    case Finding(name) => Owned(s, name, p)
    case Saving(name, pr) => Owned(s, name, p) && pr < |s.prs| && s.prs[pr].head == name
    case Failing => true
  }

  ghost predicate WorkersOk(s: State) {
    forall w {:trigger WorkerOk(s, s.workers[w])} :: w in s.workers && Unexpired(s, s.workers[w]) ==>
        WorkerOk(s, s.workers[w])
  }

  // Every pull request is on the one branch its plan made, recorded and marked.
  ghost predicate PrOk(s: State, i: nat)
    requires i < |s.prs|
  {
    var pr := s.prs[i];
    Owned(s, pr.head, pr.author) && s.rows[pr.author].planned
  }

  // A finished plan's row names a pull request of its own.
  ghost predicate RecordOk(s: State, p: PlanId, row: Row) {
    row.status == Succeeded ==> row.pr.Some? && row.pr.value < |s.prs| && s.prs[row.pr.value].author == p
  }

  ghost predicate PrsOk(s: State) {
    && (forall p {:trigger s.rows[p]} :: p in s.rows ==> RecordOk(s, p, s.rows[p]))
    && (forall i {:trigger PrOk(s, i)} :: 0 <= i < |s.prs| ==> PrOk(s, i))
    && (forall i, j {:trigger s.prs[i], s.prs[j]} :: 0 <= i < j < |s.prs| ==> s.prs[i].head != s.prs[j].head)
  }

  ghost predicate Inv(world: World, s: State) {
    && WellTyped(world, s)
    && Leases(s)
    && RowsOk(s)
    && CleanTree(s, s.base)
    && BranchesOk(s)
    && WorkersOk(s)
    && PrsOk(s)
  }

  // Where nothing else stands in the way, a plan of this status can be claimed exactly when it is
  // executable.
  lemma {:induction false} ClaimMatchesGate(world: World, s: State, w: WorkerId, p: PlanId, row: PlanRow, repo: Repo,
        policy: Option<Mode>)
    requires w !in s.workers && p in s.rows && s.rows[p].planned
    requires row.status == s.rows[p].status && row.updatedAt == s.rows[p].updatedAt
    requires Executable(row.(status := Pending), repo, policy, s.now)
    ensures Enabled(world, s, Claim(w, p)) <==> Executable(row, repo, policy, s.now)
    ensures Enabled(world, s, Claim(w, p)) <==>
              || s.rows[p].status in {Pending, Status.Failed}
              || (s.rows[p].status == Running && s.now - s.rows[p].updatedAt > 1800)
  {
  }

  // ---- Changes of one part of the state ------------------------------------------------------

  // Same rows, branches, pull requests and base: nothing about them changes.
  ghost predicate SameShared(s: State, t: State) {
    t.rows == s.rows && t.branches == s.branches && t.prs == s.prs && t.base == s.base
  }

  lemma {:induction false} SharedKept(s: State, t: State)
    requires SameShared(s, t) && RowsOk(s) && CleanTree(s, s.base) && BranchesOk(s) && PrsOk(s)
    ensures RowsOk(t) && CleanTree(t, t.base) && BranchesOk(t) && PrsOk(t)
  {
    forall name | name in t.branches
      ensures BranchOk(t, name)
    {
      assert BranchOk(s, name);
      forall p | Marked(t, name, p) && !Settled(t, p)
        ensures t.branches[name].creator == Some(p) && t.rows[p].planned && t.rows[p].branch == name
      {
        assert Marked(s, name, p);
      }
    }
    forall i | 0 <= i < |t.prs|
      ensures PrOk(t, i)
    {
      assert PrOk(s, i);
    }
  }

  lemma {:induction false} WorkerOkKept(s: State, t: State, worker: Worker)
    requires SameShared(s, t) && WorkerOk(s, worker)
    ensures WorkerOk(t, worker)
  {
    if Unmarked(s, worker.plan) {
      forall name
        ensures !Marked(t, name, worker.plan)
      {
        assert !Marked(s, name, worker.plan);
      }
    }
  }

  lemma {:induction false} MovePc(world: World, s: State, w: WorkerId, pc: Pc)
    requires Inv(world, s) && w in s.workers && (Unexpired(s, s.workers[w]) ==> WorkerOk(s, s.workers[w].(pc := pc)))
    ensures Inv(world, At(s, w, pc))
  {
    var t := At(s, w, pc);
    SharedKept(s, t);
    assert forall v, p :: Live(t, v, p) <==> Live(s, v, p);
    hide WorkerOk, BranchesOk, PrsOk, CleanTree;
    forall v | v in t.workers && Unexpired(t, t.workers[v])
      ensures WorkerOk(t, t.workers[v])
    {
      if v != w { assert WorkerOk(s, s.workers[v]); }
      WorkerOkKept(s, t, t.workers[v]);
    }
  }

  lemma {:induction false} DropWorker(world: World, s: State, w: WorkerId)
    requires Inv(world, s)
    ensures Inv(world, s.(workers := s.workers - {w}))
  {
    var t := s.(workers := s.workers - {w});
    SharedKept(s, t);
    assert forall v, p :: Live(t, v, p) ==> Live(s, v, p);
    forall v | v in t.workers && Unexpired(t, t.workers[v])
      ensures WorkerOk(t, t.workers[v])
    {
      assert WorkerOk(s, s.workers[v]);
      WorkerOkKept(s, t, t.workers[v]);
    }
  }

  lemma {:induction false} TickKeeps(world: World, s: State, to: int)
    requires Inv(world, s) && s.now <= to
    ensures Inv(world, s.(now := to))
  {
    var t := s.(now := to);
    SharedKept(s, t);
    assert forall v, p :: Live(t, v, p) ==> Live(s, v, p);
    forall v | v in t.workers && Unexpired(t, t.workers[v])
      ensures WorkerOk(t, t.workers[v])
    {
      assert WorkerOk(s, s.workers[v]);
      WorkerOkKept(s, t, t.workers[v]);
    }
  }

  lemma {:induction false} MoveBaseKeeps(world: World, s: State, tree: Tree)
    requires Inv(world, s) && CleanTree(s, tree)
    ensures Inv(world, s.(base := tree))
  {
    var t := s.(base := tree);
    var u := t.(base := s.base);
    assert u == s;
    assert forall v, p :: Live(t, v, p) <==> Live(s, v, p);
    forall name | name in t.branches
      ensures BranchOk(t, name)
    {
      assert BranchOk(s, name);
      assert forall p :: Marked(t, name, p) <==> Marked(s, name, p);
    }
    forall i | 0 <= i < |t.prs|
      ensures PrOk(t, i)
    {
      assert PrOk(s, i);
    }
    forall v | v in t.workers && Unexpired(t, t.workers[v])
      ensures WorkerOk(t, t.workers[v])
    {
      assert WorkerOk(s, s.workers[v]);
      assert forall name :: Marked(t, name, t.workers[v].plan) <==> Marked(s, name, t.workers[v].plan);
    }
  }

  lemma {:induction false} NewBranchKeeps(world: World, s: State, name: string, creator: Option<PlanId>, tree: Tree)
    requires Inv(world, s) && name !in s.branches && CleanTree(s, tree)
    ensures Inv(world, s.(branches := s.branches[name := Branch(creator, tree, {})]))
    ensures forall p :: Unmarked(s, p) && !Settled(s, p) ==>
              Unmarked(s.(branches := s.branches[name := Branch(creator, tree, {})]), p)
  {
    var t := s.(branches := s.branches[name := Branch(creator, tree, {})]);
    assert forall v, p :: Live(t, v, p) <==> Live(s, v, p);
    forall n, p | n != name
      ensures Marked(t, n, p) <==> Marked(s, n, p)
    {
    }
    forall p | Marked(t, name, p)
      ensures Settled(s, p)
    {
      assert tree.markers[MarkerPath(name)] == p;
    }
    forall n | n in t.branches
      ensures BranchOk(t, n)
    {
      if n != name { assert BranchOk(s, n); }
    }
    forall i | 0 <= i < |t.prs|
      ensures PrOk(t, i)
    {
      assert PrOk(s, i);
    }
    forall v | v in t.workers && Unexpired(t, t.workers[v])
      ensures WorkerOk(t, t.workers[v])
    {
      assert WorkerOk(s, s.workers[v]);
      LiveUnsettled(s, v);
      NewBranchWorker(s, t, name, s.workers[v]);
    }
  }

  // A live worker's plan is unfinished.
  lemma {:induction false} LiveUnsettled(s: State, w: WorkerId)
    requires Leases(s) && w in s.workers && Unexpired(s, s.workers[w])
    ensures s.workers[w].plan in s.rows && s.rows[s.workers[w].plan].status == Running && !Settled(s, s.workers[w].plan)
    ensures s.rows[s.workers[w].plan].planned
  {
    assert Live(s, w, s.workers[w].plan);
  }

  lemma {:induction false} NewBranchWorker(s: State, t: State, name: string, worker: Worker)
    requires WorkerOk(s, worker) && !Settled(s, worker.plan)
    requires t.rows == s.rows && t.prs == s.prs && name !in s.branches
    requires forall n, p :: n != name ==> (Marked(t, n, p) <==> Marked(s, n, p))
    requires forall p :: Marked(t, name, p) ==> Settled(s, p)
    requires forall n :: n in s.branches ==> n in t.branches && t.branches[n] == s.branches[n]
    ensures WorkerOk(t, worker)
  {
    if Unmarked(s, worker.plan) {
      forall n
        ensures !Marked(t, n, worker.plan)
      {
        assert !Marked(s, n, worker.plan);
      }
    }
  }

  // The creating plan writes its marker, or a file, on its own branch.
  ghost predicate WriteOk(s: State, name: string, tree: Tree, p: PlanId) {
    && Made(s, name, p) && p in s.rows && s.rows[p].planned && s.rows[p].branch == name
    && (Owner(name, tree) == Some(p) || Owner(name, tree) == Owner(name, s.branches[name].tree))
  }

  lemma {:induction false} WriteKeeps(world: World, s: State, w: WorkerId, name: string, tree: Tree, p: PlanId)
    requires Inv(world, s) && WriteOk(s, name, tree, p) && Live(s, w, p)
    requires s.workers[w].pc.Marking? || s.workers[w].pc.Writing?
    ensures Inv(world, Written(s, name, tree, p))
  {
    var t := Written(s, name, tree, p);
    assert forall v, q :: Live(t, v, q) <==> Live(s, v, q);
    forall n, q | Marked(t, n, q) && q != p
      ensures Marked(s, n, q)
    {
    }
    forall n | n in t.branches
      ensures BranchOk(t, n)
    {
      assert BranchOk(s, n);
      forall q | Marked(t, n, q) && !Settled(t, q)
        ensures t.branches[n].creator == Some(q) && t.rows[q].planned && t.rows[q].branch == n
      {
        assert (n == name && q == p) || Marked(s, n, q);
      }
    }
    forall i | 0 <= i < |t.prs|
      ensures PrOk(t, i)
    {
      assert PrOk(s, i);
    }
    forall v | v in t.workers && Unexpired(t, t.workers[v])
      ensures WorkerOk(t, t.workers[v])
    {
      assert WorkerOk(s, s.workers[v]);
      if s.workers[v].plan == p { assert Live(s, w, p) && Live(s, v, p); }
      WriteWorker(s, name, tree, p, s.workers[v]);
    }
  }

  lemma {:induction false} WriteWorker(s: State, name: string, tree: Tree, p: PlanId, worker: Worker)
    requires WriteOk(s, name, tree, p) && WorkerOk(s, worker)
    requires worker.plan == p ==> !worker.pc.Choosing? && !worker.pc.Checking? && !worker.pc.Persisting?
    ensures WorkerOk(Written(s, name, tree, p), worker)
  {
    var t := Written(s, name, tree, p);
    if Unmarked(s, worker.plan) && worker.plan != p {
      forall n
        ensures !Marked(t, n, worker.plan)
      {
        assert !Marked(s, n, worker.plan);
      }
    }
  }

  // The one live worker of a plan moves its row to a branch of its own.
  lemma {:induction false} RenameKeeps(world: World, s: State, w: WorkerId, name: string)
    requires Inv(world, s) && w in s.workers && Unexpired(s, s.workers[w]) && s.workers[w].pc == Persisting(name)
    requires name != s.workers[w].preferred && name !in SiblingNames(s, s.workers[w].plan)
    ensures var p := s.workers[w].plan; Inv(world,
              s.(rows := s.rows[p := s.rows[p].(branch := name, updatedAt := s.now)]))
  {
    var p := s.workers[w].plan;
    var t := s.(rows := s.rows[p := s.rows[p].(branch := name, updatedAt := s.now)]);
    LiveUnsettled(s, w);
    assert WorkerOk(s, s.workers[w]);
    assert forall v, q :: Live(t, v, q) <==> Live(s, v, q);
    assert forall q :: Settled(t, q) <==> Settled(s, q);
    hide BranchesOk, WorkersOk, PrOk, Unmarked, WorkerOk, Settled, CleanTree;
    RenameBranches(s, t, p);
    RenameWorkers(world, s, t, w);
    assert CleanTree(t, t.base) by { SameSettled(s, t, s.base); }
  }

  lemma {:induction false} SameSettled(s: State, t: State, tree: Tree)
    requires CleanTree(s, tree) && forall q :: Settled(s, q) ==> Settled(t, q)
    ensures CleanTree(t, tree)
  {
    hide Settled;
  }

  // No branch or pull request depends on the row of a plan without a marker.
  lemma {:induction false} RenameBranches(s: State, t: State, p: PlanId)
    requires BranchesOk(s) && PrsOk(s) && t.branches == s.branches && t.prs == s.prs && Unmarked(s, p)
    requires p in s.rows && p in t.rows && t.rows == s.rows[p := t.rows[p]]
    requires t.rows[p].status == s.rows[p].status && t.rows[p].pr == s.rows[p].pr
    ensures BranchesOk(t) && PrsOk(t)
  {
    assert forall n, q :: Marked(t, n, q) <==> Marked(s, n, q);
    assert forall q :: Settled(t, q) <==> Settled(s, q);
    forall n | n in t.branches
      ensures BranchOk(t, n)
    {
      assert BranchOk(s, n);
      assert !Marked(s, n, p);
    }
    forall i | 0 <= i < |t.prs|
      ensures PrOk(t, i)
    {
      assert PrOk(s, i);
      assert !Marked(s, s.prs[i].head, p);
    }
  }

  lemma {:induction false} RenameWorkers(world: World, s: State, t: State, w: WorkerId)
    requires w in s.workers && Live(s, w, s.workers[w].plan) && s.workers[w].pc.Persisting?
    requires Leases(s) && WorkersOk(s)
    requires t.workers == s.workers && t.now == s.now && t.branches == s.branches && t.prs == s.prs
    requires var p := s.workers[w].plan;
             && p in s.rows && p in t.rows && t.rows == s.rows[p := t.rows[p]]
             && t.rows[p].branch == s.workers[w].pc.branch
    requires forall q :: Settled(s, q) ==> Settled(t, q)
    ensures WorkersOk(t)
  {
    hide WorkerOk;
    var p := s.workers[w].plan;
    forall v | v in t.workers && Unexpired(t, t.workers[v])
      ensures WorkerOk(t, t.workers[v])
    {
      assert WorkerOk(s, s.workers[v]);
      assert Live(s, v, s.workers[v].plan);
      RowWorker(s, t, p, s.workers[v]);
    }
  }

  lemma {:induction false} RowWorker(s: State, t: State, p: PlanId, worker: Worker)
    requires t.branches == s.branches && t.prs == s.prs && t.rows.Keys == s.rows.Keys && WorkerOk(s, worker)
    requires forall q :: q in s.rows && q != p ==> t.rows[q] == s.rows[q]
    requires forall q :: Settled(s, q) ==> Settled(t, q)
    requires worker.plan == p ==> p in s.rows && worker.pc.Persisting? && t.rows[p].branch == worker.pc.branch
    ensures WorkerOk(t, worker)
  {
    if Unmarked(s, worker.plan) {
      forall n
        ensures !Marked(t, n, worker.plan)
      {
        assert !Marked(s, n, worker.plan);
      }
    }
  }

  lemma {:induction false} StatusBranches(s: State, t: State, p: PlanId)
    requires BranchesOk(s) && PrsOk(s) && t.branches == s.branches && t.prs == s.prs
    requires p in s.rows && p in t.rows && t.rows == s.rows[p := t.rows[p]]
    requires t.rows[p].planned && t.rows[p].branch == s.rows[p].branch && RecordOk(s, p, t.rows[p])
    requires forall q :: Settled(s, q) ==> Settled(t, q)
    ensures BranchesOk(t) && PrsOk(t)
  {
    assert forall n, q :: Marked(t, n, q) <==> Marked(s, n, q);
    forall n | n in t.branches
      ensures BranchOk(t, n)
    {
      assert BranchOk(s, n);
      forall q | Marked(t, n, q) && !Settled(t, q)
        ensures t.branches[n].creator == Some(q) && t.rows[q].planned && t.rows[q].branch == n
      {
        assert Marked(s, n, q) && !Settled(s, q);
      }
    }
    forall i | 0 <= i < |t.prs|
      ensures PrOk(t, i)
    {
      assert PrOk(s, i);
    }
  }

  // With no live worker on it, a row may take any status that does not undo SUCCEEDED.
  lemma {:induction false} StatusKeeps(world: World, s: State, p: PlanId, row: Row)
    requires Inv(world, s) && p in s.rows && s.rows[p].planned
    requires forall v :: !Live(s, v, p)
    requires row.planned && row.session == s.rows[p].session && row.branch == s.rows[p].branch
    requires s.rows[p].status != Succeeded && RecordOk(s, p, row)
    ensures Inv(world, s.(rows := s.rows[p := row]))
  {
    var t := s.(rows := s.rows[p := row]);
    assert forall v, q :: Live(t, v, q) <==> Live(s, v, q);
    assert forall n, q :: Marked(t, n, q) <==> Marked(s, n, q);
    assert forall q :: Settled(s, q) ==> Settled(t, q);
    StatusBranches(s, t, p);
    OtherWorkers(s, t, p);
    hide BranchesOk, WorkersOk, PrOk;
  }

  // Live workers of other plans do not look at the row.
  lemma {:induction false} OtherWorkers(s: State, t: State, p: PlanId)
    requires WorkersOk(s) && t.workers == s.workers && t.now == s.now && t.branches == s.branches && t.prs == s.prs
    requires p in s.rows && p in t.rows && t.rows == s.rows[p := t.rows[p]]
    requires forall v :: !Live(s, v, p)
    requires forall q :: Settled(s, q) ==> Settled(t, q)
    ensures WorkersOk(t)
  {
    hide WorkerOk;
    forall v | v in t.workers && Unexpired(t, t.workers[v])
      ensures WorkerOk(t, t.workers[v])
    {
      assert WorkerOk(s, s.workers[v]);
      assert Live(s, v, s.workers[v].plan);
      RowWorker(s, t, p, s.workers[v]);
    }
  }

  lemma {:induction false} NewPlanKeeps(world: World, s: State, p: PlanId, session: string, name: string)
    requires Inv(world, s) && Enabled(world, s, NewPlan(p, session, name))
    ensures Inv(world, Next(world, s, NewPlan(p, session, name)))
  {
    var t := Next(world, s, NewPlan(p, session, name));
    assert s.rows[p].status == Pending;
    assert forall v, q :: Live(t, v, q) <==> Live(s, v, q);
    assert forall q :: Settled(s, q) <==> Settled(t, q);
    forall v
      ensures !Live(s, v, p)
    {
      if Live(s, v, p) { LiveUnsettled(s, v); }
    }
    NewPlanBranches(s, t, p);
    OtherWorkers(s, t, p);
    hide BranchesOk, WorkersOk, PrOk;
  }

  // A plan that was not there has no marker that counts and no pull request.
  lemma {:induction false} NewPlanBranches(s: State, t: State, p: PlanId)
    requires BranchesOk(s) && PrsOk(s) && t.branches == s.branches && t.prs == s.prs
    requires p in s.rows && !s.rows[p].planned && p in t.rows && t.rows == s.rows[p := t.rows[p]]
    requires t.rows[p].status != Succeeded && s.rows[p].status != Succeeded
    ensures BranchesOk(t) && PrsOk(t)
  {
    assert forall n, q :: Marked(t, n, q) <==> Marked(s, n, q);
    assert forall q :: Settled(s, q) <==> Settled(t, q);
    forall n | n in t.branches
      ensures BranchOk(t, n)
    {
      assert BranchOk(s, n);
      forall q | Marked(t, n, q) && !Settled(t, q)
        ensures t.branches[n].creator == Some(q) && t.rows[q].planned && t.rows[q].branch == n
      {
        assert Marked(s, n, q) && !Settled(s, q);
      }
    }
    forall i | 0 <= i < |t.prs|
      ensures PrOk(t, i)
    {
      assert PrOk(s, i);
    }
  }

  // The first pull request from a branch.
  lemma {:induction false} OpenPrKeeps(world: World, s: State, name: string, p: PlanId)
    requires Inv(world, s) && Owned(s, name, p) && s.rows[p].planned && !HasPr(s, name)
    ensures Inv(world, s.(prs := s.prs + [PullRequest(name, p)]))
  {
    var t := s.(prs := s.prs + [PullRequest(name, p)]);
    assert forall v, q :: Live(t, v, q) <==> Live(s, v, q);
    assert forall n, q :: Marked(t, n, q) <==> Marked(s, n, q);
    forall n | n in t.branches
      ensures BranchOk(t, n)
    {
      assert BranchOk(s, n);
      assert forall q :: Settled(t, q) <==> Settled(s, q);
    }
    forall i | 0 <= i < |t.prs|
      ensures PrOk(t, i)
    {
      if i < |s.prs| { assert PrOk(s, i); }
    }
    forall i, j | 0 <= i < j < |t.prs|
      ensures t.prs[i].head != t.prs[j].head
    {
      assert t.prs[i] == s.prs[i];
    }
    forall v | v in t.workers && Unexpired(t, t.workers[v])
      ensures WorkerOk(t, t.workers[v])
    {
      assert WorkerOk(s, s.workers[v]);
      if Unmarked(s, s.workers[v].plan) {
        forall n ensures !Marked(t, n, s.workers[v].plan) { assert !Marked(s, n, s.workers[v].plan); }
      }
    }
  }

  // ---- One event -----------------------------------------------------------------------------

  lemma {:induction false} ClaimKeeps(world: World, s: State, w: WorkerId, p: PlanId)
    requires Inv(world, s) && Enabled(world, s, Claim(w, p))
    ensures Inv(world, Next(world, s, Claim(w, p)))
  {
    forall v
      ensures !Live(s, v, p)
    {
    }
    var row := s.rows[p].(status := Running, updatedAt := s.now);
    var t := s.(rows := s.rows[p := row]);
    StatusKeeps(world, s, p, row);
    assert forall v :: Live(t, v, p) <==> Live(s, v, p);
    AddWorker(world, t, w, Worker(p, s.now, row.branch, Begun));
  }

  lemma {:induction false} AddWorker(world: World, s: State, w: WorkerId, worker: Worker)
    requires Inv(world, s) && w !in s.workers && worker.plan in s.rows && worker.pc == Begun
    requires forall v :: !Live(s, v, worker.plan)
    requires var row := s.rows[worker.plan]; row.planned && row.status == Running && row.branch == worker.preferred
    requires worker.claimedAt <= s.now && worker.claimedAt <= s.rows[worker.plan].updatedAt
    ensures Inv(world, s.(workers := s.workers[w := worker]))
  {
    var t := s.(workers := s.workers[w := worker]);
    SharedKept(s, t);
    assert forall v, p :: Live(t, v, p) ==> Live(s, v, p) || (v == w && p == worker.plan);
    NewWorkersOk(s, t, w);
    hide WorkersOk, BranchesOk, PrsOk, CleanTree, RowsOk;
  }

  lemma {:induction false} NewWorkersOk(s: State, t: State, w: WorkerId)
    requires SameShared(s, t) && WorkersOk(s) && t.now == s.now && w in t.workers
               && t.workers == s.workers[w := t.workers[w]]
    requires t.workers[w].pc == Begun && t.workers[w].plan in s.rows
    requires s.rows[t.workers[w].plan].branch == t.workers[w].preferred
    ensures WorkersOk(t)
  {
    assert WorkerOk(t, t.workers[w]);
    hide WorkerOk, SameShared;
    forall v | v in t.workers && Unexpired(t, t.workers[v])
      ensures WorkerOk(t, t.workers[v])
    {
      if v != w {
        assert WorkerOk(s, s.workers[v]);
        WorkerOkKept(s, t, t.workers[v]);
      }
    }
  }

  lemma {:induction false} FinishKeeps(world: World, s: State, w: WorkerId, row: Row)
    requires Inv(world, s) && w in s.workers && Unexpired(s, s.workers[w])
    requires var before := s.rows[s.workers[w].plan];
             row.planned == before.planned && row.session == before.session && row.branch == before.branch
    requires RecordOk(s, s.workers[w].plan, row)
    ensures Inv(world, Finished(s, w, row))
  {
    var p := s.workers[w].plan;
    LiveUnsettled(s, w);
    var t := s.(workers := s.workers - {w});
    DropWorker(world, s, w);
    forall v
      ensures !Live(t, v, p)
    {
      if Live(t, v, p) { assert Live(s, v, p) && Live(s, w, p); }
    }
    StatusKeeps(world, t, p, row);
  }

  // Only the recorded branch can carry an unfinished plan's marker.
  lemma {:induction false} UnmarkedUnless(s: State, p: PlanId)
    requires BranchesOk(s) && p in s.rows && !Settled(s, p)
    requires !Marked(s, s.rows[p].branch, p)
    ensures Unmarked(s, p)
  {
    forall name
      ensures !Marked(s, name, p)
    {
      if name in s.branches { assert BranchOk(s, name); }
    }
  }

  lemma {:induction false} ChoosingKeeps(world: World, s: State, w: WorkerId)
    requires Inv(world, s) && w in s.workers && Unexpired(s, s.workers[w]) && s.workers[w].pc.Choosing?
    ensures Inv(world, Acted(world, s, w, None))
  {
    var worker := s.workers[w];
    var name := BranchCandidate(worker.preferred, worker.pc.k);
    LiveUnsettled(s, w);
    assert WorkerOk(s, worker);
    if worker.pc.k >= BRANCH_COLLISION_ATTEMPTS {
      MovePc(world, s, w, Failing);
    } else if name in worker.pc.siblings {
      MovePc(world, s, w, Choosing(worker.pc.k + 1, worker.pc.siblings, worker.pc.base));
    } else if name in s.branches {
      MovePc(world, s, w, Checking(worker.pc.k, worker.pc.siblings, worker.pc.base));
    } else {
      var t := s.(branches := s.branches[name := Branch(Some(worker.plan), worker.pc.base, {})]);
      NewBranchKeeps(world, s, name, Some(worker.plan), worker.pc.base);
      MovePc(world, t, w, Persisting(name));
    }
  }

  lemma {:induction false} CheckingKeeps(world: World, s: State, w: WorkerId)
    requires Inv(world, s) && w in s.workers && Unexpired(s, s.workers[w]) && s.workers[w].pc.Checking?
    ensures Inv(world, Acted(world, s, w, None))
  {
    var worker := s.workers[w];
    var p, name := worker.plan, BranchCandidate(worker.preferred, worker.pc.k);
    LiveUnsettled(s, w);
    assert WorkerOk(s, worker);
    if name in s.branches && Owner(name, s.branches[name].tree) == Some(p) {
      assert Marked(s, name, p) && BranchOk(s, name);
      assert Acted(world, s, w, None) == At(s, w, Persisting(name));
      assert WorkerOk(s, worker.(pc := Persisting(name)));
      hide Inv, Acted, WorkerOk;
      MovePc(world, s, w, Persisting(name));
    } else {
      var next := Choosing(worker.pc.k + 1, worker.pc.siblings, worker.pc.base);
      assert Acted(world, s, w, None) == At(s, w, next);
      if worker.pc.k == 0 {
        assert !Marked(s, name, p);
        UnmarkedUnless(s, p);
      }
      assert WorkerOk(s, worker.(pc := next));
      hide Inv, Acted, WorkerOk;
      MovePc(world, s, w, next);
    }
  }

  lemma {:induction false} PersistingKeeps(world: World, s: State, w: WorkerId)
    requires Inv(world, s) && w in s.workers && Unexpired(s, s.workers[w]) && s.workers[w].pc.Persisting?
    ensures Inv(world, Acted(world, s, w, None))
  {
    var worker := s.workers[w];
    var p, name := worker.plan, worker.pc.branch;
    LiveUnsettled(s, w);
    assert WorkerOk(s, worker);
    if name == worker.preferred {
      MovePc(world, s, w, Marking(name));
    } else if name in SiblingNames(s, p) {
      MovePc(world, s, w, Failing);
    } else {
      RenameKeeps(world, s, w, name);
      MovePc(world, s.(rows := s.rows[p := s.rows[p].(branch := name, updatedAt := s.now)]), w, Marking(name));
    }
  }

  lemma {:induction false} MarkingKeeps(world: World, s: State, w: WorkerId)
    requires Inv(world, s) && w in s.workers && Unexpired(s, s.workers[w]) && s.workers[w].pc.Marking?
    ensures Inv(world, Acted(world, s, w, None))
  {
    var worker := s.workers[w];
    var p, name := worker.plan, worker.pc.branch;
    LiveUnsettled(s, w);
    assert WorkerOk(s, worker);
    var tree := s.branches[name].tree;
    var marked := tree.(markers := tree.markers[MarkerPath(name) := p]);
    assert Live(s, w, p) && Owner(name, marked) == Some(p);
    WriteKeeps(world, s, w, name, marked, p);
    var t := Written(s, name, marked, p);
    assert Owned(t, name, p);
    hide Inv, WorkerOk;
    MoveToFixing(world, t, w, name, 0, false);
  }

  lemma {:induction false} MoveToFixing(world: World, s: State, w: WorkerId, name: string, n: nat, changed: bool)
    requires Inv(world, s) && w in s.workers && Owned(s, name, s.workers[w].plan)
    ensures Inv(world, At(s, w, Fixing(name, n, changed)))
  {
    hide Inv;
    MovePc(world, s, w, Fixing(name, n, changed));
  }

  lemma {:induction false} FixingKeeps(world: World, s: State, w: WorkerId, authored: Option<string>)
    requires Inv(world, s) && w in s.workers && Unexpired(s, s.workers[w]) && s.workers[w].pc.Fixing?
    ensures Inv(world, Acted(world, s, w, authored))
  {
    assert WorkerOk(s, s.workers[w]);
    var next := Acted(world, s, w, authored).workers[w].pc;
    assert Acted(world, s, w, authored) == At(s, w, next);
    MovePc(world, s, w, next);
  }

  lemma {:induction false} WritingKeeps(world: World, s: State, w: WorkerId)
    requires Inv(world, s) && w in s.workers && Unexpired(s, s.workers[w]) && s.workers[w].pc.Writing?
    ensures Inv(world, Acted(world, s, w, None))
  {
    var worker := s.workers[w];
    var p, name, n := worker.plan, worker.pc.branch, worker.pc.n;
    LiveUnsettled(s, w);
    assert WorkerOk(s, worker);
    if n >= |world.specs[p].paths| {
      MovePc(world, s, w, Failing);
    } else {
      var tree := s.branches[name].tree;
      var fixed := tree.(files := tree.files[world.specs[p].paths[n] := worker.pc.content]);
      assert Live(s, w, p) && Owner(name, fixed) == Some(p);
      WriteKeeps(world, s, w, name, fixed, p);
      var t := Written(s, name, fixed, p);
      assert Owned(t, name, p);
      hide Inv, WorkerOk;
      MoveToFixing(world, t, w, name, n + 1, true);
    }
  }

  lemma {:induction false} OpeningKeeps(world: World, s: State, w: WorkerId)
    requires Inv(world, s) && w in s.workers && Unexpired(s, s.workers[w]) && s.workers[w].pc.Opening?
    ensures Inv(world, Acted(world, s, w, None))
  {
    var worker := s.workers[w];
    var p, name := worker.plan, worker.pc.branch;
    LiveUnsettled(s, w);
    assert WorkerOk(s, worker);
    if HasPr(s, name) {
      MovePc(world, s, w, Finding(name));
    } else {
      OpenPrKeeps(world, s, name, p);
      var t := s.(prs := s.prs + [PullRequest(name, p)]);
      assert Owned(t, name, p) by { assert Marked(s, name, p) && Marked(t, name, p); }
      MovePc(world, t, w, Saving(name, |s.prs|));
    }
  }

  lemma {:induction false} ReadingKeeps(world: World, s: State, w: WorkerId)
    requires Inv(world, s) && w in s.workers && Unexpired(s, s.workers[w])
    requires s.workers[w].pc.Begun? || s.workers[w].pc.GotBase? || s.workers[w].pc.Finding?
    ensures Inv(world, Acted(world, s, w, None))
  {
    var worker := s.workers[w];
    LiveUnsettled(s, w);
    assert WorkerOk(s, worker);
    MovePc(world, s, w, Call(world, s, w, None).pc.value);
  }

  lemma {:induction false} FinishingKeeps(world: World, s: State, w: WorkerId)
    requires Inv(world, s) && w in s.workers && Unexpired(s, s.workers[w])
    requires s.workers[w].pc.Saving? || s.workers[w].pc.Failing?
    ensures Inv(world, Acted(world, s, w, None))
  {
    var p := s.workers[w].plan;
    LiveUnsettled(s, w);
    assert WorkerOk(s, s.workers[w]);
    if s.workers[w].pc.Saving? { assert PrOk(s, s.workers[w].pc.pr); }
    FinishKeeps(world, s, w, Call(world, s, w, None).rows[p]);
  }

  lemma {:induction false} ActKeeps(world: World, s: State, w: WorkerId, authored: Option<string>)
    requires Inv(world, s) && Enabled(world, s, Act(w, authored))
    ensures Inv(world, Acted(world, s, w, authored))
  {
    assert WellTyped(world, s) && w in s.workers && Unexpired(s, s.workers[w]);
    AuthoredUnused(world, s, w, authored);
    hide Inv, WellTyped, Unexpired, Acted, Call, Enabled;
    match s.workers[w].pc {
      case Choosing(_, _, _) => ChoosingKeeps(world, s, w);
      case Checking(_, _, _) => CheckingKeeps(world, s, w);
      case Persisting(_) => PersistingKeeps(world, s, w);
      case Marking(_) => MarkingKeeps(world, s, w);
      case Fixing(_, _, _) => FixingKeeps(world, s, w, authored);
      case Writing(_, _, _) => WritingKeeps(world, s, w);
      case Opening(_) => OpeningKeeps(world, s, w);
      case Saving(_, _) => FinishingKeeps(world, s, w);
      case Failing => FinishingKeeps(world, s, w);
      case _ => ReadingKeeps(world, s, w);
    }
  }

  // Only the fixing step looks at what was authored.
  lemma {:induction false} AuthoredUnused(world: World, s: State, w: WorkerId, authored: Option<string>)
    requires WellTyped(world, s) && w in s.workers
    ensures !s.workers[w].pc.Fixing? ==> Acted(world, s, w, authored) == Acted(world, s, w, None)
  {
  }

  // Every event keeps the invariant.
  lemma {:induction false} NextKeeps(world: World, s: State, e: Event)
    requires Inv(world, s) && Enabled(world, s, e)
    ensures Inv(world, Next(world, s, e))
  {
    match e {
      case Tick(to) => TickKeeps(world, s, to);
      case NewPlan(p, session, name) => NewPlanKeeps(world, s, p, session, name);
      case Claim(w, p) => ClaimKeeps(world, s, w, p);
      case Act(w, authored) => ActKeeps(world, s, w, authored);
      case Error(w) =>
        LiveUnsettled(s, w);
        MovePc(world, s, w, Failing);
      case Crash(w) => DropWorker(world, s, w);
      case MoveBase(tree) => MoveBaseKeeps(world, s, tree);
      case ForeignBranch(name, tree) => NewBranchKeeps(world, s, name, None, tree);
    }
  }

  // ---- Whole runs ----------------------------------------------------------------------------

  // Before anything has run: plans are pending, branches are other people's and name no plan.
  ghost predicate Init(world: World, s: State) {
    && WellTyped(world, s) && s.workers == map[] && s.prs == [] && RowsOk(s)
    && (forall p :: p in s.rows ==> s.rows[p].status == Pending)
    && CleanTree(s, s.base)
    && (forall name :: name in s.branches ==>
         s.branches[name].creator == None && s.branches[name].writers == {} && CleanTree(s, s.branches[name].tree))
  }

  // The states a run passes through.
  ghost predicate IsRun(world: World, trace: seq<State>, events: seq<Event>) {
    && |trace| == |events| + 1 && Init(world, trace[0])
    && forall i {:trigger events[i]} :: 0 <= i < |events| ==>
         WellTyped(world, trace[i]) && Enabled(world, trace[i], events[i])
             && trace[i + 1] == Next(world, trace[i], events[i])
  }

  lemma {:induction false} RunStep(world: World, trace: seq<State>, events: seq<Event>, i: nat)
    requires IsRun(world, trace, events) && i + 1 < |trace|
    ensures i < |events| && WellTyped(world, trace[i]) && Enabled(world, trace[i], events[i])
    ensures trace[i + 1] == Next(world, trace[i], events[i])
  {
    hide Init;
    assert events[i] == events[i];
  }

  lemma {:induction false} InitInv(world: World, s: State)
    requires Init(world, s)
    ensures Inv(world, s)
  {
    forall name | name in s.branches
      ensures BranchOk(s, name)
    {
      forall p | Marked(s, name, p)
        ensures Settled(s, p)
      {
        assert s.branches[name].tree.markers[MarkerPath(name)] == p;
      }
    }
  }

  lemma {:induction false} RunInv(world: World, trace: seq<State>, events: seq<Event>, i: nat)
    requires IsRun(world, trace, events) && i < |trace|
    ensures Inv(world, trace[i])
  {
    if i == 0 {
      InitInv(world, trace[0]);
    } else {
      RunInv(world, trace, events, i - 1);
      NextKeeps(world, trace[i - 1], events[i - 1]);
    }
  }

  // Two workers that may still act never work on the same plan.
  lemma {:induction false} OneLiveWorker(world: World, trace: seq<State>, events: seq<Event>, i: nat, v: WorkerId,
        w: WorkerId)
    requires IsRun(world, trace, events) && i < |trace|
    requires v in trace[i].workers && w in trace[i].workers && trace[i].workers[v].plan == trace[i].workers[w].plan
    requires Unexpired(trace[i], trace[i].workers[v]) && Unexpired(trace[i], trace[i].workers[w])
    ensures v == w
  {
    RunInv(world, trace, events, i);
    var p := trace[i].workers[v].plan;
    assert Live(trace[i], v, p) && Live(trace[i], w, p);
  }

  // At most one pull request is ever opened for a plan.
  lemma {:induction false} OnePullRequestPerPlan(world: World, trace: seq<State>, events: seq<Event>, i: nat, a: nat,
        b: nat)
    requires IsRun(world, trace, events) && i < |trace|
    requires a < |trace[i].prs| && b < |trace[i].prs| && trace[i].prs[a].author == trace[i].prs[b].author
    ensures a == b
  {
    RunInv(world, trace, events, i);
    var s := trace[i];
    assert PrOk(s, a) && PrOk(s, b);
    assert s.prs[a].head == s.prs[b].head;
  }

  // and a plan that succeeded has recorded the number of exactly that one, on its own branch.
  lemma {:induction false} SucceededHasItsPullRequest(world: World, trace: seq<State>, events: seq<Event>, i: nat,
        p: PlanId)
    requires IsRun(world, trace, events) && i < |trace|
    requires p in trace[i].rows && trace[i].rows[p].status == Succeeded
    ensures var row := trace[i].rows[p];
            row.pr.Some? && row.pr.value < |trace[i].prs| && trace[i].prs[row.pr.value] == PullRequest(row.branch, p)
  {
    RunInv(world, trace, events, i);
    var s := trace[i];
    assert RecordOk(s, p, s.rows[p]);
    assert PrOk(s, s.rows[p].pr.value);
  }

  // Everything written to a branch was written by the plan that made it.
  lemma {:induction false} OneWriterPerBranch(world: World, trace: seq<State>, events: seq<Event>, i: nat,
        name: string, p: PlanId)
    requires IsRun(world, trace, events) && i < |trace|
    requires name in trace[i].branches && p in trace[i].branches[name].writers
    ensures trace[i].branches[name].creator == Some(p)
  {
    RunInv(world, trace, events, i);
    assert BranchOk(trace[i], name);
  }

  lemma {:induction false} SucceededStepKept(world: World, s: State, e: Event, p: PlanId)
    requires Inv(world, s) && Enabled(world, s, e) && p in s.rows && s.rows[p].status == Succeeded
    ensures p in Next(world, s, e).rows && Next(world, s, e).rows[p] == s.rows[p]
  {
    if e.Act? {
      LiveUnsettled(s, e.worker);
      OwnRowOnly(world, s, e.worker, e.authored, p);
    }
  }

  // A worker changes no row but its plan's.
  lemma {:induction false} OwnRowOnly(world: World, s: State, w: WorkerId, authored: Option<string>, q: PlanId)
    requires WellTyped(world, s) && w in s.workers && q in s.rows && q != s.workers[w].plan
    ensures q in Acted(world, s, w, authored).rows && Acted(world, s, w, authored).rows[q] == s.rows[q]
  {
  }

  // A plan that succeeded stays as it is, pull request number included.
  lemma {:induction false} SucceededIsFinal(world: World, trace: seq<State>, events: seq<Event>, i: nat, j: nat,
        p: PlanId)
    requires IsRun(world, trace, events) && i <= j < |trace|
    requires p in trace[i].rows && trace[i].rows[p].status == Succeeded
    ensures p in trace[j].rows && trace[j].rows[p] == trace[i].rows[p]
    decreases j
  {
    if i < j {
      SucceededIsFinal(world, trace, events, i, j - 1, p);
      RunInv(world, trace, events, j - 1);
      SucceededStepKept(world, trace[j - 1], events[j - 1], p);
    }
  }
}
