/** The branch a plan's run ends up on. */
module ExecutionChoice {
  // From the claim to the first file: the run tries the preferred name and nine numbered ones, takes
  // the first that it may use, and fails when there is none.

  import opened Options
  import opened Gate
  import opened Execution
  import opened ExecutionSafety
  import opened ExecutionAlone
  import BranchNames

  // ---- Names ---------------------------------------------------------------------------------------

  const SUFFIXES := ["", "-2", "-3", "-4", "-5", "-6", "-7", "-8", "-9", "-10"]

  // As much of the preferred name as leaves room for the suffix in 255 characters.
  function NameAt(preferred: string, k: nat): string
    requires k < |SUFFIXES|
  {
    var room := 255 - |SUFFIXES[k]|;
    if k == 0 then preferred
    else (if |preferred| <= room then preferred else preferred[..room]) + SUFFIXES[k]
  }

  lemma {:induction false} CandidateIsNameAt(preferred: string, k: nat)
    requires k < |SUFFIXES|
    ensures BranchCandidate(preferred, k) == NameAt(preferred, k)
  {
    if k > 0 {
      DecimalSuffix(k);
      assert |SUFFIXES[k]| <= 3;
      hide BranchNames.Decimal, SUFFIXES;
    }
  }

  lemma {:induction false} DecimalSuffix(k: nat)
    requires 0 < k < |SUFFIXES|
    ensures "-" + BranchNames.Decimal(k + 1) == SUFFIXES[k]
  {
    if k == 9 {
      assert BranchNames.Decimal(10) == BranchNames.Decimal(1) + [BranchNames.Digit(0)];
      assert BranchNames.Decimal(1) == [BranchNames.Digit(1)];
    } else {
      assert BranchNames.Decimal(k + 1) == [BranchNames.Digit(k + 1)];
    }
  }

  lemma {:induction false} DashedAt(branch: string, i: nat)
    requires i < |branch|
    ensures |DashSlashes(branch)| == |branch|
    ensures DashSlashes(branch)[i] == if branch[i] == '/' then '-' else branch[i]
  {
    var init := branch[..|branch| - 1];
    if init != [] { DashedAt(init, if i < |init| then i else 0); }
  }

  // The marker file is named after the branch, with dashes for its slashes.
  lemma {:induction false} MarkerPathIs(branch: string, i: nat)
    requires i < |branch|
    ensures var path := MarkerPath(branch);
            && |path| == 16 + |branch| + 3 && path[..16] == ".gardener/plans/" && path[16 + |branch|..] == ".md"
            && path[16 + i] == if branch[i] == '/' then '-' else branch[i]
  {
    DashedAt(branch, i);
    hide DashSlashes;
  }

  // ---- Which names are free ------------------------------------------------------------------------

  // No other plan of the session has the name, and no branch does, unless it carries the plan's marker.
  ghost predicate Free(s: State, p: PlanId, k: nat)
    requires p in s.rows && k < |SUFFIXES|
  {
    var name := NameAt(s.rows[p].branch, k);
    && (forall q {:trigger s.rows[q]} ::
          q in s.rows && q != p && s.rows[q].planned && s.rows[q].session == s.rows[p].session ==>
            s.rows[q].branch != name)
    && (name in s.branches ==> Marked(s, name, p))
  }

  ghost predicate TakenBelow(s: State, p: PlanId, k: nat)
    requires p in s.rows && k <= |SUFFIXES|
  {
    forall j: nat {:trigger Free(s, p, j)} :: j < k ==> !Free(s, p, j)
  }

  // The first free name is the k-th.
  ghost predicate FirstFree(s: State, p: PlanId, k: nat)
    requires p in s.rows
  {
    k < |SUFFIXES| && Free(s, p, k) && TakenBelow(s, p, k)
  }

  // The files the run finds on the branch: those of the branch, or of the default branch for a new one.
  ghost function FilesAt(s: State, name: string): map<string, string> {
    if name in s.branches then FilesOf(s, name) else s.base.files
  }

  // ---- Trying them ---------------------------------------------------------------------------------

  // The run has no branch yet, and nothing has changed since its claim in `o`.
  ghost predicate Looking(world: World, o: State, s: State, w: WorkerId, p: PlanId, pc: Pc) {
    && AtPc(world, s, w, p, pc) && p in o.rows && p in s.rows
    && s.workers[w].preferred == o.rows[p].branch && s.rows[p].branch == o.rows[p].branch
    && s.prs == o.prs && s.base == o.base
    && s.branches == o.branches && SiblingNames(s, p) == SiblingNames(o, p)
  }

  // The run is on the branch, with the files it found.
  ghost predicate OnBranch(world: World, o: State, s: State, w: WorkerId, p: PlanId, name: string, pc: Pc) {
    && AtPc(world, s, w, p, pc) && p in s.rows && s.prs == o.prs
    && name in s.branches && FilesOf(s, name) == FilesAt(o, name)
  }

  // ... and its row has the preferred name still.
  ghost predicate Recording(world: World, o: State, s: State, w: WorkerId, p: PlanId, name: string) {
    && OnBranch(world, o, s, w, p, name, Persisting(name)) && p in o.rows
    && s.workers[w].preferred == s.rows[p].branch && SiblingNames(s, p) == SiblingNames(o, p)
  }

  lemma {:induction false} SiblingsKept(s: State, t: State, p: PlanId)
    requires p in s.rows && t.rows.Keys == s.rows.Keys && t.rows[p].session == s.rows[p].session
    requires forall q :: q in s.rows && q != p ==> t.rows[q] == s.rows[q]
    ensures SiblingNames(t, p) == SiblingNames(s, p)
  {
  }

  lemma {:induction false} Claimed(world: World, s: State, w: WorkerId, p: PlanId)
    requires Inv(world, s) && Enabled(world, s, Claim(w, p)) && p in world.specs
    requires Inv(world, Next(world, s, Claim(w, p)))
    ensures Looking(world, s, Next(world, s, Claim(w, p)), w, p, Begun)
  {
    var t := Next(world, s, Claim(w, p));
    assert WellTyped(world, t);
    hide Inv;
    SiblingsKept(s, t, p);
  }

  // A call that only moves the worker on.
  lemma {:induction false} MovesOn(world: World, o: State, s: State, w: WorkerId, author: Author, p: PlanId, pc: Pc,
        next: Pc)
    requires Looking(world, o, s, w, p, pc) && Inv(world, Moved(world, s, w, author))
    requires Call(world, s, w, Answer(world, s, w, author)) == Goto(s, next)
    ensures Looking(world, o, Moved(world, s, w, author), w, p, next)
  {
    var t := Moved(world, s, w, author);
    assert WellTyped(world, t);
    hide Inv, Call, SiblingNames;
    SiblingsKept(s, t, p);
  }

  lemma {:induction false} BegunStep(world: World, o: State, s: State, w: WorkerId, author: Author, p: PlanId)
    requires Looking(world, o, s, w, p, Begun) && Inv(world, Moved(world, s, w, author))
    ensures Looking(world, o, Moved(world, s, w, author), w, p, GotBase(o.base))
  {
    assert Call(world, s, w, Answer(world, s, w, author)) == Goto(s, GotBase(o.base)) by { hide Inv; }
    hide *;
    MovesOn(world, o, s, w, author, p, Begun, GotBase(o.base));
  }

  lemma {:induction false} GotBaseStep(world: World, o: State, s: State, w: WorkerId, author: Author, p: PlanId)
    requires Looking(world, o, s, w, p, GotBase(o.base)) && Inv(world, Moved(world, s, w, author))
    ensures p in o.rows && Looking(world, o, Moved(world, s, w, author), w, p, Choosing(0, SiblingNames(o, p), o.base))
  {
    assert p in o.rows && Call(world, s, w, Answer(world, s, w, author))
        == Goto(s, Choosing(0, SiblingNames(o, p), o.base)) by { hide Inv; }
    hide *;
    MovesOn(world, o, s, w, author, p, GotBase(o.base), Choosing(0, SiblingNames(o, p), o.base));
  }

  // The state in which the run tries its k-th name.
  ghost predicate Trying(world: World, o: State, s: State, w: WorkerId, p: PlanId, k: nat) {
    p in o.rows && Looking(world, o, s, w, p, Choosing(k, SiblingNames(o, p), o.base))
  }

  // ... and has found that a branch has it.
  ghost predicate Asking(world: World, o: State, s: State, w: WorkerId, p: PlanId, k: nat) {
    p in o.rows && Looking(world, o, s, w, p, Checking(k, SiblingNames(o, p), o.base))
  }

  lemma {:induction false} SiblingIff(o: State, p: PlanId, name: string)
    requires p in o.rows
    ensures name in SiblingNames(o, p) <==>
              exists q {:trigger o.rows[q]} :: q in o.rows && q != p && o.rows[q].planned
                && o.rows[q].session == o.rows[p].session && o.rows[q].branch == name
  {
  }

  lemma {:induction false} ChoosingStep(world: World, o: State, s: State, w: WorkerId, author: Author, p: PlanId,
        k: nat)
    requires Trying(world, o, s, w, p, k) && Inv(world, Moved(world, s, w, author)) && k < |SUFFIXES|
    ensures var t, name := Moved(world, s, w, author), NameAt(o.rows[p].branch, k);
            if name in SiblingNames(o, p) then Trying(world, o, t, w, p, k + 1)
            else if name in o.branches then Asking(world, o, t, w, p, k)
            else Recording(world, o, t, w, p, name)
  {
    var name := NameAt(o.rows[p].branch, k);
    CandidateIsNameAt(o.rows[p].branch, k);
    hide Inv, NameAt, BranchCandidate, SiblingNames;
    var siblings := SiblingNames(o, p);
    if name in siblings {
      assert Call(world, s, w, Answer(world, s, w, author)) == Goto(s, Choosing(k + 1, siblings, o.base));
      hide Call, Looking, Moved;
      MovesOn(world, o, s, w, author, p, Choosing(k, siblings, o.base), Choosing(k + 1, siblings, o.base));
    } else if name in o.branches {
      assert Call(world, s, w, Answer(world, s, w, author)) == Goto(s, Checking(k, siblings, o.base));
      hide Call, Looking, Moved;
      MovesOn(world, o, s, w, author, p, Choosing(k, siblings, o.base), Checking(k, siblings, o.base));
    } else {
      MakesBranch(world, o, s, w, author, p, k, name);
    }
  }

  lemma {:induction false} MakesBranch(world: World, o: State, s: State, w: WorkerId, author: Author, p: PlanId,
        k: nat, name: string)
    requires Trying(world, o, s, w, p, k) && Inv(world, Moved(world, s, w, author)) && k < |SUFFIXES|
    requires name == BranchCandidate(o.rows[p].branch, k) && name !in SiblingNames(o, p) && name !in o.branches
    ensures Recording(world, o, Moved(world, s, w, author), w, p, name)
  {
    var t := Moved(world, s, w, author);
    assert WellTyped(world, t);
    hide Inv, BranchCandidate, SiblingNames;
    SiblingsKept(s, t, p);
  }

  // Where the run goes when a branch has the name.
  ghost function AfterAsking(o: State, p: PlanId, k: nat, name: string): Pc
    requires p in o.rows && name in o.branches
  {
    if Owner(name, o.branches[name].tree) == Some(p) then Persisting(name)
        else Choosing(k + 1, SiblingNames(o, p), o.base)
  }

  lemma {:induction false} AskedCall(world: World, o: State, s: State, w: WorkerId, author: Author, p: PlanId, k: nat,
        name: string)
    requires Asking(world, o, s, w, p, k) && name == BranchCandidate(o.rows[p].branch, k) && name in o.branches
    ensures Call(world, s, w, Answer(world, s, w, author)) == Goto(s, AfterAsking(o, p, k, name))
  {
    hide Inv, BranchCandidate, SiblingNames, Owner;
  }

  lemma {:induction false} CheckingStep(world: World, o: State, s: State, w: WorkerId, author: Author, p: PlanId,
        k: nat)
    requires Asking(world, o, s, w, p, k) && Inv(world, Moved(world, s, w, author)) && k < |SUFFIXES|
    requires NameAt(o.rows[p].branch, k) in o.branches
    ensures var t, name := Moved(world, s, w, author), NameAt(o.rows[p].branch, k);
            if Marked(o, name, p) then Recording(world, o, t, w, p, name) else Trying(world, o, t, w, p, k + 1)
  {
    var name := NameAt(o.rows[p].branch, k);
    CandidateIsNameAt(o.rows[p].branch, k);
    AskedCall(world, o, s, w, author, p, k, name);
    hide Inv, NameAt, BranchCandidate, SiblingNames, Call, Moved, Owner;
    MovesOn(world, o, s, w, author, p, Checking(k, SiblingNames(o, p), o.base), AfterAsking(o, p, k, name));
  }

  lemma {:induction false} CanStep(world: World, o: State, s: State, w: WorkerId, p: PlanId, pc: Pc)
    requires Looking(world, o, s, w, p, pc)
    ensures Inv(world, s) && WellTyped(world, s) && w in s.workers && Unexpired(s, s.workers[w])
  {
  }

  lemma {:induction false} IsTrying(world: World, o: State, s: State, w: WorkerId, p: PlanId)
    requires p in o.rows && Looking(world, o, s, w, p, Choosing(0, SiblingNames(o, p), o.base))
    ensures Trying(world, o, s, w, p, 0)
  {
  }

  lemma {:induction false} FreeIff(o: State, p: PlanId, k: nat)
    requires p in o.rows && k < |SUFFIXES|
    ensures var name := NameAt(o.rows[p].branch, k);
            Free(o, p, k) <==> name !in SiblingNames(o, p) && (name in o.branches ==> Marked(o, name, p))
  {
    SiblingIff(o, p, NameAt(o.rows[p].branch, k));
    hide NameAt, SiblingNames, Marked;
  }

  // A name that is not free is passed over, in one call or two; a free one is taken.
  lemma {:induction false} TryName(world: World, o: State, s: State, w: WorkerId, author: Author, p: PlanId, k: nat,
        n: nat)
    returns (t: State, m: nat)
    requires Inv(world, s) && Trying(world, o, s, w, p, k) && k < |SUFFIXES| && n >= 2
    ensures n - 2 <= m < n && Inv(world, t) && Solo(world, s, w, author, n) == Solo(world, t, w, author, m)
    ensures if Free(o, p, k) then Recording(world, o, t, w, p, NameAt(o.rows[p].branch, k))
            else Trying(world, o, t, w, p, k + 1)
    ensures Free(o, p, k) && NameAt(o.rows[p].branch, k) !in o.branches ==> m == n - 1
  {
    var name := NameAt(o.rows[p].branch, k);
    FreeIff(o, p, k);
    hide Inv, Moved, Solo, NameAt, SiblingNames, Marked, Free, Recording;
    CanStep(world, o, s, w, p, Choosing(k, SiblingNames(o, p), o.base));
    SoloStep(world, s, w, author, n);
    ChoosingStep(world, o, s, w, author, p, k);
    t, m := Moved(world, s, w, author), n - 1;
    if name !in SiblingNames(o, p) && name in o.branches {
      CanStep(world, o, t, w, p, Checking(k, SiblingNames(o, p), o.base));
      SoloStep(world, t, w, author, m);
      CheckingStep(world, o, t, w, author, p, k);
      t, m := Moved(world, t, w, author), m - 1;
    }
  }

  // Past all names that are not free.
  lemma {:induction false} TryUpTo(world: World, o: State, s: State, w: WorkerId, author: Author, p: PlanId, k: nat,
        n: nat)
    returns (t: State, m: nat)
    requires Inv(world, s) && Trying(world, o, s, w, p, 0) && n >= 2 * k
    requires k <= |SUFFIXES| && TakenBelow(o, p, k)
    ensures n - 2 * k <= m <= n && (k == 0 ==> m == n)
    ensures Inv(world, t) && Trying(world, o, t, w, p, k)
              && Solo(world, s, w, author, n) == Solo(world, t, w, author, m)
  {
    hide Inv, Solo, Looking, Free, SiblingNames;
    t, m := s, n;
    if k > 0 {
      assert !Free(o, p, k - 1);
      t, m := TryUpTo(world, o, s, w, author, p, k - 1, n);
      t, m := TryName(world, o, t, w, author, p, k - 1, m);
    }
  }

  lemma {:induction false} BegunCall(world: World, o: State, s: State, w: WorkerId, author: Author, p: PlanId, n: nat)
    returns (t: State)
    requires Looking(world, o, s, w, p, Begun) && Inv(world, s) && n >= 1
    ensures Inv(world, t) && Looking(world, o, t, w, p, GotBase(o.base))
    ensures Solo(world, s, w, author, n) == Solo(world, t, w, author, n - 1)
  {
    hide *;
    CanStep(world, o, s, w, p, Begun);
    SoloStep(world, s, w, author, n);
    BegunStep(world, o, s, w, author, p);
    t := Moved(world, s, w, author);
  }

  lemma {:induction false} GotBaseCall(world: World, o: State, s: State, w: WorkerId, author: Author, p: PlanId, n: nat)
    returns (t: State)
    requires Looking(world, o, s, w, p, GotBase(o.base)) && Inv(world, s) && n >= 1
    ensures Inv(world, t) && Trying(world, o, t, w, p, 0)
    ensures Solo(world, s, w, author, n) == Solo(world, t, w, author, n - 1)
  {
    hide *;
    CanStep(world, o, s, w, p, GotBase(o.base));
    SoloStep(world, s, w, author, n);
    GotBaseStep(world, o, s, w, author, p);
    t := Moved(world, s, w, author);
    IsTrying(world, o, t, w, p);
  }

  lemma {:induction false} StartsTrying(world: World, o: State, s: State, w: WorkerId, author: Author, p: PlanId,
        n: nat)
    returns (t: State)
    requires Looking(world, o, s, w, p, Begun) && Inv(world, s) && n >= 2
    ensures Inv(world, t) && Trying(world, o, t, w, p, 0)
    ensures Solo(world, s, w, author, n) == Solo(world, t, w, author, n - 2)
  {
    hide *;
    t := BegunCall(world, o, s, w, author, p, n);
    t := GotBaseCall(world, o, t, w, author, p, n - 1);
  }

  // ---- No name -------------------------------------------------------------------------------------

  // The run is over, and has left nothing behind.
  ghost predicate Nameless(s: State, t: State, w: WorkerId, p: PlanId) {
    && w !in t.workers && p in s.rows && p in t.rows
    && t.rows[p].status == Status.Failed && t.rows[p].branch == s.rows[p].branch
    && t.branches == s.branches && t.prs == s.prs
  }

  lemma {:induction false} OutOfNames(world: World, o: State, s: State, w: WorkerId, author: Author, p: PlanId)
    requires Trying(world, o, s, w, p, |SUFFIXES|) && Inv(world, Moved(world, s, w, author))
    ensures Looking(world, o, Moved(world, s, w, author), w, p, Failing)
  {
    assert WellTyped(world, Moved(world, s, w, author));
    hide Inv;
    SiblingsKept(s, Moved(world, s, w, author), p);
  }

  lemma {:induction false} EndsNameless(world: World, o: State, s: State, w: WorkerId, author: Author, p: PlanId,
        n: nat)
    requires Looking(world, o, s, w, p, Failing) && n >= 1
    ensures Nameless(o, Solo(world, s, w, author, n), w, p)
  {
    hide Inv, Moved, Solo, SiblingNames;
    SoloStep(world, s, w, author, n);
    FailingStep(world, s, w, author, p);
    SoloStops(world, Moved(world, s, w, author), w, author, n - 1);
  }

  // ---- The first free name -------------------------------------------------------------------------

  lemma {:induction false} RecordsName(world: World, o: State, s: State, w: WorkerId, author: Author, p: PlanId,
        name: string)
    requires Recording(world, o, s, w, p, name) && name !in SiblingNames(o, p)
    ensures Call(world, s, w, Answer(world, s, w, author))
         == Goto(s, Marking(name)).(rows :=
              if name == s.rows[p].branch then s.rows
              else s.rows[p := s.rows[p].(branch := name, updatedAt := s.now)])
  {
    hide Inv, SiblingNames, FilesAt, FilesOf;
  }

  // The chosen name is recorded unless it is the preferred one.
  lemma {:induction false} PersistingStep(world: World, o: State, s: State, w: WorkerId, author: Author, p: PlanId,
        name: string)
    requires Recording(world, o, s, w, p, name) && Inv(world, Moved(world, s, w, author))
    requires name !in SiblingNames(o, p)
    ensures OnBranch(world, o, Moved(world, s, w, author), w, p, name, Marking(name))
    ensures Moved(world, s, w, author).rows[p].branch == name
  {
    RecordsName(world, o, s, w, author, p, name);
    assert WellTyped(world, Moved(world, s, w, author));
    hide Inv, SiblingNames, Call, Answer;
  }

  lemma {:induction false} MarkingStep(world: World, o: State, s: State, w: WorkerId, author: Author, p: PlanId,
        name: string)
    requires OnBranch(world, o, s, w, p, name, Marking(name)) && Inv(world, Moved(world, s, w, author))
    requires s.rows[p].branch == name
    ensures OnBranch(world, o, Moved(world, s, w, author), w, p, name, Fixing(name, 0, false))
    ensures Home(Moved(world, s, w, author), p, name)
  {
    assert WellTyped(world, Moved(world, s, w, author));
    hide Inv;
  }

  // A run with a free name comes to its first file, on the branch of the first free name.
  lemma {:induction false} ReachesFiles(world: World, o: State, s: State, w: WorkerId, author: Author, p: PlanId,
        k: nat, n: nat)
    returns (t: State, m: nat)
    requires Inv(world, s) && Looking(world, o, s, w, p, Begun) && p in o.rows
    requires FirstFree(o, p, k) && n >= 2 * k + 6
    ensures n - 2 * k - 6 <= m && (k == 0 && o.rows[p].branch !in o.branches ==> m == n - 5)
    ensures var name := NameAt(o.rows[p].branch, k);
            Home(t, p, name) && OnBranch(world, o, t, w, p, name, Fixing(name, 0, false))
    ensures Solo(world, s, w, author, n) == Solo(world, t, w, author, m)
  {
    var name := NameAt(o.rows[p].branch, k);
    FreeIff(o, p, k);
    FirstFreeIs(o, p, k);
    hide *;
    t, m := ToItsBranch(world, o, s, w, author, p, k, n);
    t, m := ToFirstFile(world, o, t, w, author, p, name, m);
  }

  lemma {:induction false} ToItsBranch(world: World, o: State, s: State, w: WorkerId, author: Author, p: PlanId,
        k: nat, n: nat)
    returns (t: State, m: nat)
    requires Inv(world, s) && Looking(world, o, s, w, p, Begun) && p in o.rows
    requires FirstFree(o, p, k) && k < |SUFFIXES| && n >= 2 * k + 4
    ensures n - 2 * k - 4 <= m < n && (k == 0 && o.rows[p].branch !in o.branches ==> m == n - 3)
    ensures Recording(world, o, t, w, p, NameAt(o.rows[p].branch, k))
              && Solo(world, s, w, author, n) == Solo(world, t, w, author, m)
  {
    hide *;
    t := StartsTrying(world, o, s, w, author, p, n);
    t, m := TakesFirstFree(world, o, t, w, author, p, k, n - 2);
  }

  lemma {:induction false} FirstFreeIs(s: State, p: PlanId, k: nat)
    requires p in s.rows && FirstFree(s, p, k)
    ensures k < |SUFFIXES| && Free(s, p, k) && TakenBelow(s, p, k)
  {
  }

  lemma {:induction false} TakesFirstFree(world: World, o: State, s: State, w: WorkerId, author: Author, p: PlanId,
        k: nat, n: nat)
    returns (t: State, m: nat)
    requires Inv(world, s) && Trying(world, o, s, w, p, 0) && FirstFree(o, p, k) && n >= 2 * k + 2
    ensures n - 2 * k - 2 <= m < n && Inv(world, t) && Recording(world, o, t, w, p, NameAt(o.rows[p].branch, k))
    ensures k == 0 && o.rows[p].branch !in o.branches ==> m == n - 1
    ensures Solo(world, s, w, author, n) == Solo(world, t, w, author, m)
  {
    assert NameAt(o.rows[p].branch, 0) == o.rows[p].branch;
    hide Inv, Solo, Looking, Free, SiblingNames, NameAt, TakenBelow, Recording;
    t, m := TryUpTo(world, o, s, w, author, p, k, n);
    t, m := TryName(world, o, t, w, author, p, k, m);
  }

  // The branch is recorded and marked.
  lemma {:induction false} ToFirstFile(world: World, o: State, s: State, w: WorkerId, author: Author, p: PlanId,
        name: string, n: nat)
    returns (t: State, m: nat)
    requires Recording(world, o, s, w, p, name) && name !in SiblingNames(o, p) && n >= 2
    ensures m == n - 2 && Home(t, p, name) && OnBranch(world, o, t, w, p, name, Fixing(name, 0, false))
    ensures Solo(world, s, w, author, n) == Solo(world, t, w, author, m)
  {
    hide Inv, Moved, SiblingNames, Solo, Home, FilesAt;
    SoloStep(world, s, w, author, n);
    PersistingStep(world, o, s, w, author, p, name);
    t := Moved(world, s, w, author);
    SoloStep(world, t, w, author, n - 1);
    MarkingStep(world, o, t, w, author, p, name);
    t, m := Moved(world, t, w, author), n - 2;
  }

  // The run ended on the branch: the row names it, it carries the marker, its target files are
  // edited, and the run succeeded exactly when that changed one of them.
  ghost predicate EndsOn(world: World, s: State, t: State, w: WorkerId, author: Author, p: PlanId, name: string)
    requires p in world.specs
  {
    && Ends(s, t, w, p, name, NeedsEdit(world, p, author, FilesAt(s, name), 0))
    && Home(t, p, name) && FilesOf(t, name) == Edited(world, p, author, FilesAt(s, name), 0)
  }

  lemma {:induction false} EndsOnFirstFree(world: World, s: State, w: WorkerId, author: Author, p: PlanId, k: nat,
        n: nat)
    requires Inv(world, s) && Enabled(world, s, Claim(w, p)) && p in world.specs
    requires FirstFree(s, p, k) && n >= 2 * |world.specs[p].paths| + 28 && Inv(world, Next(world, s, Claim(w, p)))
    ensures EndsOn(world, s, Solo(world, Next(world, s, Claim(w, p)), w, author, n), w, author, p,
              NameAt(s.rows[p].branch, k))
  {
    ClaimsRow(world, s, w, p);
    InvTyped(world, s);
    FewNames(s, p, k);
    hide *;
    Claimed(world, s, w, p);
    FromClaim(world, s, Next(world, s, Claim(w, p)), w, author, p, k, n);
  }

  lemma {:induction false} FromClaim(world: World, o: State, s: State, w: WorkerId, author: Author, p: PlanId, k: nat,
        n: nat)
    requires Inv(world, s) && Looking(world, o, s, w, p, Begun) && p in o.rows && p in world.specs
    requires FirstFree(o, p, k) && k < |SUFFIXES| && n >= 2 * |world.specs[p].paths| + 28
    ensures EndsOn(world, o, Solo(world, s, w, author, n), w, author, p, NameAt(o.rows[p].branch, k))
  {
    hide Inv, Solo, Ends, NeedsEdit, FirstFree, NameAt, FilesAt, Edited, Looking;
    var name := NameAt(o.rows[p].branch, k);
    var t, m := ReachesFiles(world, o, s, w, author, p, k, n);
    FixingEnds(world, t, w, author, p, name, 0, false, m);
    var u := Solo(world, t, w, author, m);
    SameEnd(o, t, u, w, p, name, NeedsEdit(world, p, author, FilesAt(o, name), 0));
    AheadSolo(world, t, w, author, p, name, Edited(world, p, author, FilesAt(o, name), 0), m);
    EndGone(o, u, w, p, name, NeedsEdit(world, p, author, FilesAt(o, name), 0));
  }

  lemma {:induction false} FewNames(s: State, p: PlanId, k: nat)
    requires p in s.rows && FirstFree(s, p, k)
    ensures k < |SUFFIXES|
  {
  }

  lemma {:induction false} EndGone(s: State, t: State, w: WorkerId, p: PlanId, name: string, success: bool)
    requires Ends(s, t, w, p, name, success)
    ensures w !in t.workers
  {
  }

  lemma {:induction false} EndsWithoutName(world: World, s: State, w: WorkerId, author: Author, p: PlanId, n: nat)
    requires Inv(world, s) && Enabled(world, s, Claim(w, p)) && p in world.specs
    requires p in s.rows && TakenBelow(s, p, |SUFFIXES|) && n >= 28 && Inv(world, Next(world, s, Claim(w, p)))
    ensures Nameless(s, Solo(world, Next(world, s, Claim(w, p)), w, author, n), w, p)
  {
    InvTyped(world, s);
    hide *;
    Claimed(world, s, w, p);
    RunsOutOfNames(world, s, Next(world, s, Claim(w, p)), w, author, p, n);
  }

  lemma {:induction false} RunsOutOfNames(world: World, o: State, s: State, w: WorkerId, author: Author, p: PlanId,
        n: nat)
    requires Inv(world, s) && Looking(world, o, s, w, p, Begun) && p in o.rows
    requires TakenBelow(o, p, |SUFFIXES|) && n >= 28
    ensures Nameless(o, Solo(world, s, w, author, n), w, p)
  {
    hide Inv, Solo, TakenBelow, Nameless, Moved, SiblingNames, Looking;
    var t := StartsTrying(world, o, s, w, author, p, n);
    var m;
    t, m := TryUpTo(world, o, t, w, author, p, |SUFFIXES|, n - 2);
    CanStep(world, o, t, w, p, Choosing(|SUFFIXES|, SiblingNames(o, p), o.base));
    SoloStep(world, t, w, author, m);
    OutOfNames(world, o, t, w, author, p);
    EndsNameless(world, o, Moved(world, t, w, author), w, author, p, m - 1);
  }

  // The exact condition.  Claimed and left alone, a plan's run comes to an end within a
  // bounded number of calls.  It takes the first of its ten names that is free: no other plan of the
  // session has it, and no branch, or one with the plan's marker.  There it succeeds if and only if
  // some target file is there and its note, or what the author answers, changes it. Without a free
  // name it fails and leaves
  // nothing behind.  A failed run opens no pull request.
  lemma {:induction false} RetrySucceedsIff(world: World, s: State, w: WorkerId, author: Author, p: PlanId, n: nat)
    requires Inv(world, s) && Enabled(world, s, Claim(w, p)) && p in world.specs
    requires n >= 2 * |world.specs[p].paths| + 28
    ensures Inv(world, Next(world, s, Claim(w, p))) && p in s.rows
    ensures var t := Solo(world, Next(world, s, Claim(w, p)), w, author, n);
            if exists k: nat :: k < |SUFFIXES| && Free(s, p, k) then
              exists k: nat {:trigger FirstFree(s, p, k)} ::
                FirstFree(s, p, k) && EndsOn(world, s, t, w, author, p, NameAt(s.rows[p].branch, k))
            else Nameless(s, t, w, p)
  {
    NextKeeps(world, s, Claim(w, p));
    ClaimsRow(world, s, w, p);
    hide Inv, Next, Enabled, Solo, EndsOn, Nameless, Free, NameAt;
    if exists k: nat :: k < |SUFFIXES| && Free(s, p, k) {
      var k: nat :| k < |SUFFIXES| && Free(s, p, k);
      var j := LeastFree(s, p, k);
      EndsOnFirstFree(world, s, w, author, p, j, n);
    } else {
      EndsWithoutName(world, s, w, author, p, n);
    }
  }

  lemma {:induction false} ClaimsRow(world: World, s: State, w: WorkerId, p: PlanId)
    requires Enabled(world, s, Claim(w, p))
    ensures p in s.rows
  {
  }

  lemma {:induction false} LeastFree(s: State, p: PlanId, k: nat) returns (j: nat)
    requires p in s.rows && k < |SUFFIXES| && Free(s, p, k)
    ensures FirstFree(s, p, j)
  {
    hide Free, SUFFIXES;
    j := 0;
    while !Free(s, p, j)
      invariant j <= k && TakenBelow(s, p, j)
      decreases k - j
    {
      j := j + 1;
    }
  }
}
