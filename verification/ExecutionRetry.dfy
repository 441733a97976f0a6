/** Retrying a documentation plan. */
module ExecutionRetry {
  // A run counts as having changed something only if it wrote a file itself.  When an earlier run
  // wrote every note and then died, the files already carry their notes, so each later run writes
  // nothing, fails, and opens no pull request: the plan can never succeed again.

  import opened Options
  import opened Gate
  import opened Execution
  import opened ExecutionSafety
  import opened ExecutionAlone
  import opened ExecutionChoice

  // Every target file on the plan's branch is one the note leaves as it is.
  ghost predicate NotesInPlace(world: World, s: State, p: PlanId) {
    && p in s.rows && p in world.specs && world.specs[p].isDocs
    && Marked(s, s.rows[p].branch, p)
    && var files := s.branches[s.rows[p].branch].tree.files;
       forall path {:trigger path in files} :: path in world.specs[p].paths && path in files ==>
           world.note(p, files[path]) == files[path]
  }

  // No live run of the plan has written a file yet.
  ghost predicate NothingWritten(pc: Pc) {
    && !pc.Writing? && !pc.Opening? && !pc.Finding? && !pc.Saving?
    && (pc.Fixing? ==> !pc.changed)
  }

  ghost predicate Stuck(world: World, s: State, p: PlanId) {
    && NotesInPlace(world, s, p) && s.rows[p].status != Succeeded
    && forall w {:trigger Live(s, w, p)} :: Live(s, w, p) ==> NothingWritten(s.workers[w].pc)
  }

  // What a step of someone else leaves alone.
  ghost predicate LeavesAlone(s: State, t: State, p: PlanId) {
    && p in s.rows && p in t.rows
    && t.rows[p].branch == s.rows[p].branch && t.rows[p].status != Succeeded
    && s.rows[p].branch in s.branches && s.rows[p].branch in t.branches
    && t.branches[s.rows[p].branch].tree.files == s.branches[s.rows[p].branch].tree.files
    && (Marked(s, s.rows[p].branch, p) ==> Marked(t, s.rows[p].branch, p))
    && (forall w {:trigger Live(t, w, p)} :: Live(t, w, p) ==>
          NothingWritten(t.workers[w].pc) || (Live(s, w, p) && t.workers[w] == s.workers[w]))
    && s.prs <= t.prs && forall i :: |s.prs| <= i < |t.prs| ==> t.prs[i].author != p
  }

  lemma {:induction false} AloneStaysStuck(world: World, s: State, t: State, p: PlanId)
    requires Stuck(world, s, p) && LeavesAlone(s, t, p)
    ensures Stuck(world, t, p)
  {
  }

  lemma {:induction false} OthersKeepWorkers(world: World, s: State, w: WorkerId, authored: Option<string>, p: PlanId)
    requires WellTyped(world, s) && w in s.workers && s.workers[w].plan != p
    ensures var t := Acted(world, s, w, authored);
            forall v {:trigger Live(t, v, p)} :: Live(t, v, p) ==> Live(s, v, p) && t.workers[v] == s.workers[v]
  {
    OnlyActorMoves(world, s, w, authored);
  }

  lemma {:induction false} OnlyActorMoves(world: World, s: State, w: WorkerId, authored: Option<string>)
    requires WellTyped(world, s) && w in s.workers
    ensures var t := Acted(world, s, w, authored);
            && t.now == s.now
            && t.workers - {w} == s.workers - {w}
            && (w in t.workers ==> t.workers[w].plan == s.workers[w].plan)
  {
  }

  // A step of another plan's worker cannot touch the plan's branch.
  lemma {:induction false} OtherActs(world: World, s: State, w: WorkerId, authored: Option<string>, p: PlanId)
    requires Inv(world, s) && Stuck(world, s, p) && Enabled(world, s, Act(w, authored)) && s.workers[w].plan != p
    ensures LeavesAlone(s, Acted(world, s, w, authored), p)
  {
    LiveUnsettled(s, w);
    assert WorkerOk(s, s.workers[w]);
    BranchOfOther(world, s, p, s.workers[w].plan);
    OthersKeepWorkers(world, s, w, authored, p);
    if s.workers[w].pc.Marking? || s.workers[w].pc.Writing? {
      OtherWrites(world, s, w, authored, p);
    } else {
      OtherMoves(world, s, w, authored, p);
    }
  }

  lemma {:induction false} OtherWrites(world: World, s: State, w: WorkerId, authored: Option<string>, p: PlanId)
    requires WellTyped(world, s) && Stuck(world, s, p) && w in s.workers && s.workers[w].plan != p
    requires WorkerOk(s, s.workers[w]) && !Made(s, s.rows[p].branch, s.workers[w].plan)
    requires s.workers[w].pc.Marking? || s.workers[w].pc.Writing?
    ensures LeavesAlone(s, Acted(world, s, w, authored), p)
  {
    OthersKeepWorkers(world, s, w, authored, p);
  }

  lemma {:induction false} OtherMoves(world: World, s: State, w: WorkerId, authored: Option<string>, p: PlanId)
    requires WellTyped(world, s) && Stuck(world, s, p) && w in s.workers && s.workers[w].plan != p
    requires !s.workers[w].pc.Marking? && !s.workers[w].pc.Writing?
    ensures LeavesAlone(s, Acted(world, s, w, authored), p)
  {
    OthersKeepWorkers(world, s, w, authored, p);
  }

  // An unfinished plan's marked branch is its own, so not another plan's.
  lemma {:induction false} BranchOfOther(world: World, s: State, p: PlanId, q: PlanId)
    requires Inv(world, s) && Stuck(world, s, p) && p != q
    ensures !Made(s, s.rows[p].branch, q)
  {
    assert BranchOk(s, s.rows[p].branch);
  }

  // A step of the plan's own live worker writes nothing either, and never gets past fixing.
  lemma {:induction false} OwnActs(world: World, s: State, w: WorkerId, authored: Option<string>, p: PlanId)
    requires Inv(world, s) && Stuck(world, s, p) && Enabled(world, s, Act(w, authored)) && s.workers[w].plan == p
    ensures LeavesAlone(s, Acted(world, s, w, authored), p)
  {
    var worker := s.workers[w];
    LiveUnsettled(s, w);
    assert WorkerOk(s, worker) && Live(s, w, p);
    assert Marked(s, s.rows[p].branch, p);
    if worker.pc.Marking? {
      OwnMarks(world, s, w, p);
    } else {
      OwnMoves(world, s, w, authored, p);
    }
  }

  lemma {:induction false} OwnMarks(world: World, s: State, w: WorkerId, p: PlanId)
    requires Inv(world, s) && Stuck(world, s, p) && Live(s, w, p) && s.workers[w].pc.Marking?
               && WorkerOk(s, s.workers[w])
    ensures LeavesAlone(s, Acted(world, s, w, None), p)
  {
    var t := Acted(world, s, w, None);
    LiveUnsettled(s, w);
    forall v | Live(t, v, p)
      ensures NothingWritten(t.workers[v].pc)
    {
      assert Live(s, v, p);
    }
  }

  lemma {:induction false} OwnMoves(world: World, s: State, w: WorkerId, authored: Option<string>, p: PlanId)
    requires Inv(world, s) && Stuck(world, s, p) && Live(s, w, p) && !s.workers[w].pc.Marking?
               && WorkerOk(s, s.workers[w])
    ensures LeavesAlone(s, Acted(world, s, w, authored), p)
  {
    var worker := s.workers[w];
    var t := Acted(world, s, w, authored);
    LiveUnsettled(s, w);
    assert NothingWritten(worker.pc);
    if worker.pc.Fixing? { assert s.rows[p].branch == worker.pc.branch; }
    forall v | Live(t, v, p)
      ensures NothingWritten(t.workers[v].pc)
    {
      assert Live(s, v, p);
    }
  }

  // Once stuck, stuck after every event.
  lemma {:induction false} StuckStep(world: World, s: State, e: Event, p: PlanId)
    requires Inv(world, s) && Stuck(world, s, p) && Enabled(world, s, e)
    ensures LeavesAlone(s, Next(world, s, e), p) && Stuck(world, Next(world, s, e), p)
  {
    if e.Act? {
      if s.workers[e.worker].plan == p { OwnActs(world, s, e.worker, e.authored, p); }
          else { OtherActs(world, s, e.worker, e.authored, p); }
    } else {
      StuckOther(world, s, e, p);
    }
    AloneStaysStuck(world, s, Next(world, s, e), p);
  }

  lemma {:induction false} StuckOther(world: World, s: State, e: Event, p: PlanId)
    requires Inv(world, s) && Stuck(world, s, p) && Enabled(world, s, e) && !e.Act?
    ensures LeavesAlone(s, Next(world, s, e), p)
  {
    var t := Next(world, s, e);
    assert BranchOk(s, s.rows[p].branch);
    assert forall n :: n in s.branches ==> n in t.branches && t.branches[n] == s.branches[n];
    forall v | Live(t, v, p)
      ensures NothingWritten(t.workers[v].pc) || (Live(s, v, p) && t.workers[v] == s.workers[v])
    {
    }
  }

  // From then on the plan never succeeds, and no pull request is opened for it.
  lemma {:induction false} StuckForever(world: World, trace: seq<State>, events: seq<Event>, i: nat, j: nat, p: PlanId)
    requires IsRun(world, trace, events) && i <= j < |trace| && Stuck(world, trace[i], p)
    ensures Stuck(world, trace[j], p) && trace[j].rows[p].status != Succeeded
    ensures NoNewPr(trace[i], trace[j], p)
    decreases j
  {
    hide *;
    RunInv(world, trace, events, i);
    if i < j {
      StuckForever(world, trace, events, i, j - 1, p);
      RunInv(world, trace, events, j - 1);
      RunStep(world, trace, events, j - 1);
      StuckStep(world, trace[j - 1], events[j - 1], p);
      StuckNoPr(world, trace[j - 1], events[j - 1], p);
      NoNewPrTrans(trace[i], trace[j - 1], trace[j], p);
    } else {
      NoPrYet(trace[i], p);
    }
    StuckNotDone(world, trace[j], p);
  }

  lemma {:induction false} StuckNoPr(world: World, s: State, e: Event, p: PlanId)
    requires Inv(world, s) && Enabled(world, s, e) && LeavesAlone(s, Next(world, s, e), p)
    ensures NoNewPr(s, Next(world, s, e), p)
  {
    hide Inv, Next, Enabled, Marked;
  }

  lemma {:induction false} NoPrYet(s: State, p: PlanId)
    ensures NoNewPr(s, s, p)
  {
  }

  // Pull requests are only added, and none of them for the plan.
  ghost predicate NoNewPr(s: State, t: State, p: PlanId) {
    s.prs <= t.prs && forall k {:trigger t.prs[k]} :: |s.prs| <= k < |t.prs| ==> t.prs[k].author != p
  }

  lemma {:induction false} NoNewPrTrans(s: State, t: State, u: State, p: PlanId)
    requires NoNewPr(s, t, p) && NoNewPr(t, u, p)
    ensures NoNewPr(s, u, p)
  {
    assert forall k {:trigger u.prs[k]} :: 0 <= k < |t.prs| ==> u.prs[k] == t.prs[k];
  }

  lemma {:induction false} StuckNotDone(world: World, s: State, p: PlanId)
    requires Stuck(world, s, p)
    ensures p in s.rows && s.rows[p].status != Succeeded
  {
  }

  // How a plan gets stuck: its run writes the last note, and dies before reporting success.
  lemma {:induction false} CrashAfterNotesSticks(world: World, s: State, w: WorkerId, p: PlanId)
    requires Inv(world, s) && Live(s, w, p) && NotesInPlace(world, s, p)
    ensures Stuck(world, Next(world, s, Crash(w)), p)
  {
    var t := Next(world, s, Crash(w));
    forall v
      ensures !Live(t, v, p)
    {
      assert Live(t, v, p) ==> Live(s, v, p);
    }
  }

  // How a plan gets there: the write of the last missing note, when the note leaves its own result
  // as it is.
  lemma {:induction false} LastNoteWritten(world: World, s: State, w: WorkerId, p: PlanId)
    requires Inv(world, s) && Live(s, w, p) && p in world.specs && world.specs[p].isDocs
    requires var pc, paths := s.workers[w].pc, world.specs[p].paths;
             pc.Writing? && pc.n < |paths| && world.note(p, pc.content) == pc.content
             && s.rows[p].branch in s.branches
             && var files := s.branches[s.rows[p].branch].tree.files;
                forall path {:trigger path in files} :: path in paths && path in files && path != paths[pc.n] ==>
                    world.note(p, files[path]) == files[path]
    ensures NotesInPlace(world, Next(world, s, Act(w, None)), p)
  {
    assert WorkerOk(s, s.workers[w]);
  }

  // With no live worker, an unfinished documentation plan that has its branch is stuck exactly when a
  // retry left alone would fail: no target file is there that its note changes.
  lemma {:induction false} StuckIffNothingToChange(world: World, s: State, p: PlanId, author: Author)
    requires Inv(world, s) && p in world.specs && world.specs[p].isDocs && p in s.rows
    requires s.rows[p].status != Succeeded && Marked(s, s.rows[p].branch, p)
    requires forall w {:trigger Live(s, w, p)} :: !Live(s, w, p)
    ensures Stuck(world, s, p) <==> !NeedsEdit(world, p, author, FilesAt(s, s.rows[p].branch), 0)
  {
    hide Inv, Live;
    var files, paths := FilesAt(s, s.rows[p].branch), world.specs[p].paths;
    assert files == s.branches[s.rows[p].branch].tree.files;
    if !NeedsEdit(world, p, author, files, 0) {
      forall path | path in paths && path in files
        ensures world.note(p, files[path]) == files[path]
      {
        var i :| 0 <= i < |paths| && paths[i] == path;
      }
    }
  }

  // ---- A run that gets stuck ---------------------------------------------------------------------

  lemma {:induction false} ExtendRun(world: World, trace: seq<State>, events: seq<Event>, e: Event)
    requires IsRun(world, trace, events) && WellTyped(world, trace[|events|]) && Enabled(world, trace[|events|], e)
    ensures IsRun(world, trace + [Next(world, trace[|events|], e)], events + [e])
  {
    hide Init, WellTyped, Enabled, Next;
    var t, es := trace + [Next(world, trace[|events|], e)], events + [e];
    forall i | 0 <= i < |es|
      ensures WellTyped(world, t[i]) && Enabled(world, t[i], es[i]) && t[i + 1] == Next(world, t[i], es[i])
    {
      if i < |events| { assert es[i] == events[i]; }
    }
  }

  // A worker left alone is a run.
  lemma {:induction false} ExtendAlone(world: World, trace: seq<State>, events: seq<Event>, w: WorkerId,
        author: Author, n: nat)
    returns (longer: seq<State>, more: seq<Event>)
    requires IsRun(world, trace, events) && Inv(world, trace[|events|])
    ensures IsRun(world, longer, more) && longer[|more|] == Solo(world, trace[|events|], w, author, n)
    decreases n
  {
    hide IsRun, Inv, Next, Init;
    RunLength(world, trace, events);
    longer, more := trace, events;
    var s := trace[|events|];
    if n > 0 && w in s.workers && Unexpired(s, s.workers[w]) {
      SoloIsNext(world, s, w, author, n);
      var e := Act(w, Answer(world, s, w, author));
      ExtendRun(world, trace, events, e);
      longer, more := ExtendAlone(world, trace + [Next(world, s, e)], events + [e], w, author, n - 1);
    }
  }

  lemma {:induction false} SoloIsNext(world: World, s: State, w: WorkerId, author: Author, n: nat)
    requires Inv(world, s) && n > 0 && w in s.workers && Unexpired(s, s.workers[w])
    ensures WellTyped(world, s)
    ensures var e := Act(w, Answer(world, s, w, author));
            && Enabled(world, s, e) && Inv(world, Next(world, s, e))
            && Solo(world, s, w, author, n) == Solo(world, Next(world, s, e), w, author, n - 1)
  {
    SoloStep(world, s, w, author, n);
  }

  lemma {:induction false} RunLength(world: World, trace: seq<State>, events: seq<Event>)
    requires IsRun(world, trace, events)
    ensures |trace| == |events| + 1
  {
  }

  // A documentation plan's run asks no author.
  function NobodyAnswers(): Author {
    (path, content) => None
  }

  // One documentation plan for one file, with the same note for every content.
  function OnePlan(p: PlanId): World {
    World(map[p := Spec(true, ["README.md"])], (plan, content) => "note")
  }

  function Untouched(p: PlanId): State {
    State(0, map[p := Row(false, "", Pending, 0, "", None)], map[], map[], [], Tree(map[], map["README.md" := "text"]))
  }

  function Planned(p: PlanId): State {
    Untouched(p).(rows := map[p := Row(true, "session", Pending, 0, "gardener/docs", None)])
  }

  lemma {:induction false} PlannedIsReached(p: PlanId)
    ensures IsRun(OnePlan(p), [Untouched(p), Planned(p)], [NewPlan(p, "session", "gardener/docs")])
  {
    var world, s, e := OnePlan(p), Untouched(p), NewPlan(p, "session", "gardener/docs");
    assert Init(world, s);
    assert Next(world, s, e) == Planned(p);
  }

  // The plan's first run writes its note, then its worker dies: from the very beginning to the plan
  // that can never succeed.
  lemma {:induction false} CrashedRun(p: PlanId, w: WorkerId) returns (trace: seq<State>, events: seq<Event>)
    ensures IsRun(OnePlan(p), trace, events) && Stuck(OnePlan(p), trace[|events|], p)
  {
    var world := OnePlan(p);
    trace, events := [Untouched(p), Planned(p)], [NewPlan(p, "session", "gardener/docs")];
    PlannedIsReached(p);
    RunInv(world, trace, events, 1);
    assert Enabled(world, Planned(p), Claim(w, p));
    ExtendRun(world, trace, events, Claim(w, p));
    var s := Next(world, Planned(p), Claim(w, p));
    trace, events := trace + [s], events + [Claim(w, p)];
    RunInv(world, trace, events, 2);
    hide IsRun, Inv, Solo, Stuck, Next, Init, Live, NotesInPlace;
    trace, events := ExtendAlone(world, trace, events, w, NobodyAnswers(), 7);
    var t := WritesItsNote(p, w);
    RunLength(world, trace, events);
    CrashAfterNotesSticks(world, t, w, p);
    CanCrash(world, t, w, p);
    ExtendRun(world, trace, events, Crash(w));
    trace, events := trace + [Next(world, t, Crash(w))], events + [Crash(w)];
  }

  lemma {:induction false} CanCrash(world: World, s: State, w: WorkerId, p: PlanId)
    requires Inv(world, s) && Live(s, w, p)
    ensures WellTyped(world, s) && Enabled(world, s, Crash(w))
  {
  }

  // Seven calls after the claim the note is in place, and the worker has not reported it.
  lemma {:induction false} WritesItsNote(p: PlanId, w: WorkerId) returns (t: State)
    requires Inv(OnePlan(p), Planned(p)) && Enabled(OnePlan(p), Planned(p), Claim(w, p))
    requires Inv(OnePlan(p), Next(OnePlan(p), Planned(p), Claim(w, p)))
    ensures t == Solo(OnePlan(p), Next(OnePlan(p), Planned(p), Claim(w, p)), w, NobodyAnswers(), 7)
    ensures Inv(OnePlan(p), t) && Live(t, w, p) && NotesInPlace(OnePlan(p), t, p)
  {
    hide *;
    var world := OnePlan(p);
    OnePlanFacts(p);
    InvTyped(world, Planned(p));
    Claimed(world, Planned(p), w, p);
    var m;
    t, m := ReachesFiles(world, Planned(p), Next(world, Planned(p), Claim(w, p)), w, NobodyAnswers(), p, 0, 7);
    FirstFile(p, w, t);
    SoloStep(world, t, w, NobodyAnswers(), 2);
    FixingStep(world, t, w, NobodyAnswers(), p, "gardener/docs", 0, false);
    var u := Moved(world, t, w, NobodyAnswers());
    AtPcFacts(world, u, w, p, Writing("gardener/docs", 0, "note"));
    SoloStep(world, u, w, NobodyAnswers(), 1);
    AfterWrite(world, u, w, p, "gardener/docs");
    t := Moved(world, u, w, NobodyAnswers());
    SoloNone(world, t, w);
  }

  lemma {:induction false} OnePlanFacts(p: PlanId)
    ensures p in OnePlan(p).specs && OnePlan(p).specs[p] == Spec(true, ["README.md"])
    ensures p in Planned(p).rows && Planned(p).rows[p].branch == "gardener/docs"
    ensures "gardener/docs" !in Planned(p).branches && FirstFree(Planned(p), p, 0)
    ensures NameAt("gardener/docs", 0) == "gardener/docs"
  {
  }

  lemma {:induction false} AtPcFacts(world: World, s: State, w: WorkerId, p: PlanId, pc: Pc)
    requires AtPc(world, s, w, p, pc)
    ensures Inv(world, s) && WellTyped(world, s) && w in s.workers && Unexpired(s, s.workers[w])
  {
  }

  // The worker stands before the one file, which its note changes.
  lemma {:induction false} FirstFile(p: PlanId, w: WorkerId, t: State)
    requires OnBranch(OnePlan(p), Planned(p), t, w, p, "gardener/docs", Fixing("gardener/docs", 0, false))
    ensures AtPc(OnePlan(p), t, w, p, Fixing("gardener/docs", 0, false))
    ensures Inv(OnePlan(p), t) && WellTyped(OnePlan(p), t) && w in t.workers && Unexpired(t, t.workers[w])
    ensures "gardener/docs" in t.branches && Changes(OnePlan(p), p, NobodyAnswers(), FilesOf(t, "gardener/docs"), 0)
    ensures AfterFile(OnePlan(p), t, NobodyAnswers(), p, "gardener/docs", 0, false)
         == Writing("gardener/docs", 0, "note")
  {
    assert FilesAt(Planned(p), "gardener/docs") == map["README.md" := "text"];
    hide Inv;
  }

  lemma {:induction false} SoloNone(world: World, s: State, w: WorkerId)
    requires Inv(world, s)
    ensures Solo(world, s, w, NobodyAnswers(), 0) == s
  {
  }

  lemma {:induction false} AfterWrite(world: World, s: State, w: WorkerId, p: PlanId, name: string)
    requires world == OnePlan(p) && AtPc(world, s, w, p, Writing(name, 0, "note"))
    requires name in s.branches && Inv(world, Moved(world, s, w, NobodyAnswers()))
    ensures Live(Moved(world, s, w, NobodyAnswers()), w, p)
              && NotesInPlace(world, Moved(world, s, w, NobodyAnswers()), p)
  {
    assert WorkerOk(s, s.workers[w]);
    assert Live(s, w, p) && Enabled(world, s, Act(w, None));
    WritingStep(world, s, w, NobodyAnswers(), p, name, 0, "note");
    hide Inv, Acted, Call, NotesInPlace, WorkerOk;
    LastNoteWritten(world, s, w, p);
  }
}
