/** One run of a plan, left alone. */
module ExecutionAlone {
  // When a retry of a plan succeeds, and that it does: with nobody else acting, a claimed run comes to
  // an end, and the plan succeeds exactly when the run finds a file its note changes.

  import opened Options
  import opened Gate
  import opened Execution
  import opened ExecutionSafety

  // What the author of fixes answers for a file with this content; it is not asked by documentation plans.
  type Author = (string, string) -> Option<string>

  // The answer the worker's next call needs.
  function Answer(world: World, s: State, w: WorkerId, author: Author): Option<string>
    requires WellTyped(world, s) && w in s.workers
  {
    match s.workers[w].pc
    case Fixing(name, n, _) =>
      var paths := world.specs[s.workers[w].plan].paths;
      if name in s.branches && n < |paths| && paths[n] in s.branches[name].tree.files
      then author(paths[n], s.branches[name].tree.files[paths[n]])
      else None
    case _ => None
  }

  function Moved(world: World, s: State, w: WorkerId, author: Author): State
    requires WellTyped(world, s) && w in s.workers
  {
    Acted(world, s, w, Answer(world, s, w, author))
  }

  // What a file of the plan is to become: its content with the plan's note, or what the author answers.
  function Updated(world: World, p: PlanId, author: Author, path: string, content: string): Option<string>
    requires p in world.specs
  {
    if world.specs[p].isDocs then Some(world.note(p, content)) else author(path, content)
  }

  // The worker makes up to `n` calls and nothing else happens.
  ghost function Solo(world: World, s: State, w: WorkerId, author: Author, n: nat): (t: State)
    requires Inv(world, s)
    ensures Inv(world, t)
    decreases n
  {
    if n == 0 || w !in s.workers || !Unexpired(s, s.workers[w]) then s
    else
      NextKeeps(world, s, Act(w, Answer(world, s, w, author)));
      Solo(world, Moved(world, s, w, author), w, author, n - 1)
  }

  // One call.
  lemma {:induction false} SoloStep(world: World, s: State, w: WorkerId, author: Author, n: nat)
    requires Inv(world, s) && n > 0 && w in s.workers && Unexpired(s, s.workers[w])
    ensures Inv(world, Moved(world, s, w, author))
    ensures Solo(world, s, w, author, n) == Solo(world, Moved(world, s, w, author), w, author, n - 1)
  {
    NextKeeps(world, s, Act(w, Answer(world, s, w, author)));
    hide Inv, Acted, Answer;
  }

  lemma {:induction false} SoloStops(world: World, s: State, w: WorkerId, author: Author, n: nat)
    requires Inv(world, s) && w !in s.workers
    ensures Solo(world, s, w, author, n) == s
  {
  }

  // The worker is in the middle of its run.
  ghost predicate AtPc(world: World, s: State, w: WorkerId, p: PlanId, pc: Pc) {
    && Inv(world, s) && WellTyped(world, s) && w in s.workers && Unexpired(s, s.workers[w])
    && s.workers[w].plan == p && s.workers[w].pc == pc && p in world.specs
  }

  // The file is there, and is to become something else.
  ghost predicate IsEdited(world: World, p: PlanId, author: Author, files: map<string, string>, path: string)
    requires p in world.specs
  {
    path in files && Updated(world, p, author, path, files[path]) !in {None, Some(files[path])}
  }

  // Some file from the n-th on is to be edited.
  ghost predicate NeedsEdit(world: World, p: PlanId, author: Author, files: map<string, string>, n: nat)
    requires p in world.specs
  {
    var paths := world.specs[p].paths;
    exists i {:trigger paths[i]} :: n <= i < |paths| && IsEdited(world, p, author, files, paths[i])
  }

  // How a run ends: the worker is gone, and the plan succeeded with a pull request from `name`, or
  // failed without a new one.
  ghost predicate Ends(s: State, t: State, w: WorkerId, p: PlanId, name: string, success: bool) {
    && w !in t.workers && p in t.rows
    && if success then
         && t.rows[p].status == Succeeded && t.rows[p].pr.Some?
         && t.rows[p].pr.value < |t.prs| && t.prs[t.rows[p].pr.value].head == name
       else t.rows[p].status == Status.Failed && t.prs == s.prs
  }

  // ---- From the last file on -----------------------------------------------------------------------

  // The last call of a run that fails.
  lemma {:induction false} FailingStep(world: World, s: State, w: WorkerId, author: Author, p: PlanId)
    requires AtPc(world, s, w, p, Failing)
    ensures var t := Moved(world, s, w, author);
            && w !in t.workers && p in s.rows && t.branches == s.branches && t.prs == s.prs
            && t.rows == s.rows[p := s.rows[p].(status := Status.Failed, updatedAt := s.now)]
  {
    hide Inv;
  }

  lemma {:induction false} FailingEnds(world: World, s: State, w: WorkerId, author: Author, p: PlanId, name: string,
        n: nat)
    requires AtPc(world, s, w, p, Failing) && n >= 1
    ensures Ends(s, Solo(world, s, w, author, n), w, p, name, false)
  {
    hide Inv, Moved, Solo;
    SoloStep(world, s, w, author, n);
    FailingStep(world, s, w, author, p);
    SoloStops(world, Moved(world, s, w, author), w, author, n - 1);
  }

  lemma {:induction false} SavingEnds(world: World, s: State, w: WorkerId, author: Author, p: PlanId, name: string,
        pr: nat, n: nat)
    requires AtPc(world, s, w, p, Saving(name, pr)) && n >= 1
    ensures Ends(s, Solo(world, s, w, author, n), w, p, name, true)
  {
    assert WorkerOk(s, s.workers[w]);
    SoloStep(world, s, w, author, n);
    SoloStops(world, Moved(world, s, w, author), w, author, n - 1);
  }

  lemma {:induction false} OpeningStep(world: World, s: State, w: WorkerId, author: Author, p: PlanId, name: string)
    requires AtPc(world, s, w, p, Opening(name)) && Inv(world, Moved(world, s, w, author))
    ensures var t := Moved(world, s, w, author);
            if HasPr(s, name) then AtPc(world, t, w, p, Finding(name)) && HasPr(t, name)
            else AtPc(world, t, w, p, Saving(name, |s.prs|))
  {
    assert WellTyped(world, Moved(world, s, w, author));
    hide Inv;
  }

  lemma {:induction false} FindingStep(world: World, s: State, w: WorkerId, author: Author, p: PlanId, name: string)
    requires AtPc(world, s, w, p, Finding(name)) && HasPr(s, name) && Inv(world, Moved(world, s, w, author))
    ensures AtPc(world, Moved(world, s, w, author), w, p, Saving(name, FindPr(s.prs, name)))
  {
    assert WellTyped(world, Moved(world, s, w, author));
    hide Inv;
  }

  lemma {:induction false} OpeningEnds(world: World, s: State, w: WorkerId, author: Author, p: PlanId, name: string,
        n: nat)
    requires AtPc(world, s, w, p, Opening(name)) && n >= 3
    ensures Ends(s, Solo(world, s, w, author, n), w, p, name, true)
  {
    hide Inv, Moved, Solo, HasPr;
    var t := Moved(world, s, w, author);
    SoloStep(world, s, w, author, n);
    OpeningStep(world, s, w, author, p, name);
    if HasPr(s, name) {
      var u := Moved(world, t, w, author);
      SoloStep(world, t, w, author, n - 1);
      FindingStep(world, t, w, author, p, name);
      SavingEnds(world, u, w, author, p, name, FindPr(t.prs, name), n - 2);
    } else {
      SavingEnds(world, t, w, author, p, name, |s.prs|, n - 1);
    }
  }

  // ---- File by file --------------------------------------------------------------------------------

  function FilesOf(s: State, name: string): map<string, string>
    requires name in s.branches
  {
    s.branches[name].tree.files
  }

  lemma {:induction false} OnItsBranch(world: World, s: State, w: WorkerId, p: PlanId, name: string, k: nat,
        changed: bool)
    requires AtPc(world, s, w, p, Fixing(name, k, changed))
    ensures name in s.branches
  {
    assert WorkerOk(s, s.workers[w]);
  }

  // Does the run edit the k-th file?
  ghost predicate Changes(world: World, p: PlanId, author: Author, files: map<string, string>, k: nat)
    requires p in world.specs
  {
    var paths := world.specs[p].paths;
    k < |paths| && IsEdited(world, p, author, files, paths[k])
  }

  lemma {:induction false} NeedsEditNext(world: World, p: PlanId, author: Author, files: map<string, string>, k: nat)
    requires p in world.specs
    ensures NeedsEdit(world, p, author, files, k)
       <==> Changes(world, p, author, files, k) || NeedsEdit(world, p, author, files, k + 1)
  {
    if Changes(world, p, author, files, k) {
      var i := k;
      assert IsEdited(world, p, author, files, world.specs[p].paths[i]);
    }
  }

  // Where a run goes from its k-th file.
  ghost function AfterFile(world: World, s: State, author: Author, p: PlanId, name: string, k: nat, changed: bool): Pc
    requires p in world.specs && name in s.branches
  {
    var paths := world.specs[p].paths;
    if k >= |paths| then if changed then Opening(name) else Failing
    else if Changes(world, p, author, FilesOf(s, name), k) then
      Writing(name, k, Updated(world, p, author, paths[k], FilesOf(s, name)[paths[k]]).value)
    else Fixing(name, k + 1, changed)
  }

  lemma {:induction false} FixingCall(world: World, s: State, w: WorkerId, author: Author, p: PlanId, name: string,
        k: nat, changed: bool)
    requires AtPc(world, s, w, p, Fixing(name, k, changed)) && name in s.branches
    ensures Call(world, s, w, Answer(world, s, w, author)) == Goto(s, AfterFile(world, s, author, p, name, k, changed))
  {
    hide Inv;
  }

  // The next call of a run at its k-th file.
  lemma {:induction false} FixingStep(world: World, s: State, w: WorkerId, author: Author, p: PlanId, name: string,
        k: nat, changed: bool)
    requires AtPc(world, s, w, p, Fixing(name, k, changed)) && name in s.branches
    requires Inv(world, Moved(world, s, w, author))
    ensures var t := Moved(world, s, w, author);
            && t.prs == s.prs && t.branches == s.branches
            && AtPc(world, t, w, p, AfterFile(world, s, author, p, name, k, changed))
  {
    FixingCall(world, s, w, author, p, name, k, changed);
    assert WellTyped(world, Moved(world, s, w, author));
    hide Inv, Call, Answer, AfterFile;
  }

  lemma {:induction false} WritingStep(world: World, s: State, w: WorkerId, author: Author, p: PlanId, name: string,
        k: nat, content: string)
    requires AtPc(world, s, w, p, Writing(name, k, content)) && name in s.branches && k < |world.specs[p].paths|
    requires Inv(world, Moved(world, s, w, author))
    ensures Moved(world, s, w, author).prs == s.prs
    ensures AtPc(world, Moved(world, s, w, author), w, p, Fixing(name, k + 1, true))
  {
    assert WellTyped(world, Moved(world, s, w, author));
    hide Inv;
  }

  // From the k-th file on: the run ends, and succeeds exactly when it has changed a file or will.
  lemma {:induction false} FixingEnds(world: World, s: State, w: WorkerId, author: Author, p: PlanId, name: string,
        k: nat, changed: bool, n: nat)
    requires AtPc(world, s, w, p, Fixing(name, k, changed)) && name in s.branches
    requires n >= 2 * |world.specs[p].paths| - 2 * k + 4 && n >= 4
    ensures Ends(s, Solo(world, s, w, author, n), w, p, name, changed
              || NeedsEdit(world, p, author, FilesOf(s, name), k))
    decreases n
  {
    hide Inv, Moved, Ends;
    var t, paths := Moved(world, s, w, author), world.specs[p].paths;
    SoloStep(world, s, w, author, n);
    FixingStep(world, s, w, author, p, name, k, changed);
    NeedsEditNext(world, p, author, FilesOf(s, name), k);
    if k >= |paths| {
      if changed { OpeningEnds(world, t, w, author, p, name, n - 1); }
          else { FailingEnds(world, t, w, author, p, name, n - 1); }
      SameEnd(s, t, Solo(world, t, w, author, n - 1), w, p, name, changed);
    } else if Changes(world, p, author, FilesOf(s, name), k) {
      var content := Updated(world, p, author, paths[k], FilesOf(s, name)[paths[k]]).value;
      var u := Moved(world, t, w, author);
      SoloStep(world, t, w, author, n - 1);
      WritingStep(world, t, w, author, p, name, k, content);
      OnItsBranch(world, u, w, p, name, k + 1, true);
      FixingEnds(world, u, w, author, p, name, k + 1, true, n - 2);
      SameEnd(s, u, Solo(world, u, w, author, n - 2), w, p, name, true);
    } else {
      FixingEnds(world, t, w, author, p, name, k + 1, changed, n - 1);
      SameEnd(s, t, Solo(world, t, w, author, n - 1), w, p, name, changed
          || NeedsEdit(world, p, author, FilesOf(s, name), k));
    }
  }

  lemma {:induction false} SameEnd(s: State, t: State, u: State, w: WorkerId, p: PlanId, name: string, success: bool)
    requires t.prs == s.prs && Ends(t, u, w, p, name, success)
    ensures Ends(s, u, w, p, name, success)
  {
  }

  // ---- Where the run leaves its branch -------------------------------------------------------------

  // The plan's row names the branch, and the branch carries its marker.
  ghost predicate Home(s: State, p: PlanId, name: string) {
    p in s.rows && s.rows[p].branch == name && Marked(s, name, p)
  }

  ghost function EditOne(world: World, p: PlanId, author: Author, files: map<string, string>, path: string)
    : map<string, string>
    requires p in world.specs
  {
    if IsEdited(world, p, author, files, path) then files[path := Updated(world, p, author, path, files[path]).value]
    else files
  }

  // The files after the edits of the target files from the n-th on.
  ghost function Edited(world: World, p: PlanId, author: Author, files: map<string, string>, n: nat): map<string,
        string>
    requires p in world.specs
    decreases |world.specs[p].paths| - n
  {
    var paths := world.specs[p].paths;
    if n >= |paths| then files
    else Edited(world, p, author, EditOne(world, p, author, files, paths[n]), n + 1)
  }

  // What the branch's files will be at the end of the run.
  ghost function FilesAhead(world: World, p: PlanId, author: Author, files: map<string, string>, pc: Pc): map<string,
        string>
    requires p in world.specs
  {
    var paths := world.specs[p].paths;
    match pc
    case Fixing(_, n, _) => Edited(world, p, author, files, n)
    case Writing(_, n, content) => if n < |paths| then Edited(world, p, author, files[paths[n] := content], n + 1)
        else files
    case _ => files
  }

  // The run is on its branch, with these files to come.
  ghost predicate Ahead(world: World, s: State, w: WorkerId, author: Author, p: PlanId, name: string,
        files: map<string, string>) {
    && Home(s, p, name) && p in world.specs
    && if w in s.workers then
         var pc := s.workers[w].pc;
         && s.workers[w].plan == p
         && (pc.Fixing? || pc.Writing? || pc.Opening? || pc.Finding? || pc.Saving? || pc.Failing?)
         && (!pc.Failing? ==> pc.branch == name)
         && (pc.Writing? ==> pc.n < |world.specs[p].paths|)
         && FilesAhead(world, p, author, FilesOf(s, name), pc) == files
       else FilesOf(s, name) == files
  }

  // The step of a run that edits its files.
  lemma {:induction false} AheadEdits(world: World, s: State, w: WorkerId, author: Author, p: PlanId, name: string,
        files: map<string, string>)
    requires WellTyped(world, s) && Ahead(world, s, w, author, p, name, files) && w in s.workers
    requires s.workers[w].pc.Fixing? || s.workers[w].pc.Writing?
    ensures Ahead(world, Moved(world, s, w, author), w, author, p, name, files)
  {
    hide HasPr, FindPr, SiblingNames, MarkerPath;
  }

  // ... and of one that is done with them.
  lemma {:induction false} AheadEnds(world: World, s: State, w: WorkerId, author: Author, p: PlanId, name: string,
        files: map<string, string>)
    requires WellTyped(world, s) && Ahead(world, s, w, author, p, name, files) && w in s.workers
    requires !s.workers[w].pc.Fixing? && !s.workers[w].pc.Writing?
    ensures Ahead(world, Moved(world, s, w, author), w, author, p, name, files)
  {
    hide Edited, EditOne, SiblingNames, MarkerPath;
  }

  lemma {:induction false} AheadStep(world: World, s: State, w: WorkerId, author: Author, p: PlanId, name: string,
        files: map<string, string>)
    requires WellTyped(world, s) && Ahead(world, s, w, author, p, name, files) && w in s.workers
    ensures Ahead(world, Moved(world, s, w, author), w, author, p, name, files)
  {
    hide *;
    if s.workers[w].pc.Fixing? || s.workers[w].pc.Writing? {
      AheadEdits(world, s, w, author, p, name, files);
    } else {
      AheadEnds(world, s, w, author, p, name, files);
    }
  }

  lemma {:induction false} AheadSolo(world: World, s: State, w: WorkerId, author: Author, p: PlanId, name: string,
        files: map<string, string>, n: nat)
    requires Inv(world, s) && Ahead(world, s, w, author, p, name, files)
    ensures Ahead(world, Solo(world, s, w, author, n), w, author, p, name, files)
    decreases n
  {
    hide Inv, Ahead, Moved;
    if n > 0 && w in s.workers && Unexpired(s, s.workers[w]) {
      SoloStep(world, s, w, author, n);
      InvTyped(world, s);
      AheadStep(world, s, w, author, p, name, files);
      AheadSolo(world, Moved(world, s, w, author), w, author, p, name, files, n - 1);
    }
  }

  lemma {:induction false} InvTyped(world: World, s: State)
    requires Inv(world, s)
    ensures WellTyped(world, s)
  {
  }

  // With each target file listed once, every one of them that is there becomes what it is to become,
  // and nothing else changes.
  lemma {:induction false} EditedAt(world: World, p: PlanId, author: Author, files: map<string, string>, n: nat,
        path: string)
    requires p in world.specs && n <= |world.specs[p].paths|
    requires forall i, j {:trigger world.specs[p].paths[i], world.specs[p].paths[j]} ::
               0 <= i < j < |world.specs[p].paths| ==> world.specs[p].paths[i] != world.specs[p].paths[j]
    ensures path in Edited(world, p, author, files, n) <==> path in files
    ensures path in files ==>
              var updated := Updated(world, p, author, path, files[path]);
              Edited(world, p, author, files, n)[path]
              == if path in world.specs[p].paths[n..] && updated.Some? then updated.value else files[path]
    decreases |world.specs[p].paths| - n
  {
    var paths := world.specs[p].paths;
    if n < |paths| {
      EditedAt(world, p, author, EditOne(world, p, author, files, paths[n]), n + 1, path);
      assert paths[n..] == [paths[n]] + paths[n + 1..];
      assert paths[n] !in paths[n + 1..];
    }
  }
}
