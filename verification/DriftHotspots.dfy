/**
 Where in the repository signals changed: changed signals gathered by path.

 Each path has one entry, with the number of its changes, what they weigh together and their summaries.
 Changes without a path are the repository's.  Over all entries nothing is lost and nothing counts twice.
 What is reported of an entry is rounded and cut to three reasons.
 */
module DriftHotspots {
  import opened Options
  import opened Rounding
  import opened Drift

  datatype Entry = Entry(path: string, count: nat, impact: real, reasons: seq<string>)

  function PathOf(c: Change): string {
    if c.key.path != "" then c.key.path else "(repository)"
  }

  function Weight(c: Change): real {
    if c.Worsened? then c.delta else c.impact
  }

  function AddReason(reasons: seq<string>, summary: string): seq<string> {
    if summary != "" && summary !in reasons then reasons + [summary] else reasons
  }

  function Find(entries: seq<Entry>, path: string): (r: Option<nat>)
    ensures r.Some? ==> r.value < |entries| && entries[r.value].path == path
    ensures r.None? ==> forall i {:trigger entries[i]} :: 0 <= i < |entries| ==> entries[i].path != path
  {
    if entries == [] then None
    else if entries[|entries| - 1].path == path then Some(|entries| - 1)
    else Find(entries[..|entries| - 1], path)
  }

  function Add(e: Entry, c: Change): Entry {
    Entry(PathOf(c), e.count + 1, e.impact + Weight(c), AddReason(e.reasons, c.key.summary))
  }

  // One more change goes to the entry of its path.
  function Updated(entries: seq<Entry>, c: Change): seq<Entry> {
    match Find(entries, PathOf(c))
    case Some(i) => entries[i := Add(entries[i], c)]
    case None => entries + [Add(Entry(PathOf(c), 0, 0.0, []), c)]
  }

  // The dictionary by path, in the order the paths come up.
  function Gather(changes: seq<Change>): seq<Entry> {
    if changes == [] then [] else Updated(Gather(changes[..|changes| - 1]), changes[|changes| - 1])
  }

  // What is reported: impact rounded, at most three reasons.
  function Shown(e: Entry): Entry {
    Entry(e.path, e.count, Round2(e.impact), if |e.reasons| > 3 then e.reasons[..3] else e.reasons)
  }

  // Path and count, the impact to the nearest hundredth, and the first three reasons.
  ghost predicate Reports(shown: Entry, e: Entry) {
    && shown.path == e.path && shown.count == e.count && Rounds(shown.impact, e.impact)
    && shown.reasons <= e.reasons && (|e.reasons| <= 3 ==> shown.reasons == e.reasons)
    && (|e.reasons| > 3 ==> |shown.reasons| == 3)
  }

  method HotspotPaths(added: seq<Change>, worsened: seq<Change>) returns (ranked: seq<Entry>)
    ensures var entries := Gather(added + worsened);
            |ranked| == |entries| && forall i {:trigger ranked[i]} :: 0 <= i < |ranked| ==>
                ranked[i] == Shown(entries[i]) && Reports(ranked[i], entries[i])
  {
    var entries := GatherChanges(added + worsened);
    ranked := [];
    var i := 0;
    hide Gather;
    while i < |entries|
      invariant 0 <= i <= |entries| && |ranked| == i
      invariant forall j {:trigger ranked[j]} :: 0 <= j < i ==>
                  ranked[j] == Shown(entries[j]) && Reports(ranked[j], entries[j])
    {
      Round2Near(entries[i].impact);
      ranked := ranked + [Shown(entries[i])];
      i := i + 1;
    }
  }

  method GatherChanges(changes: seq<Change>) returns (entries: seq<Entry>)
    ensures entries == Gather(changes)
  {
    entries := [];
    var i := 0;
    hide Find, Add, PathOf;
    while i < |changes|
      invariant 0 <= i <= |changes| && entries == Gather(changes[..i])
    {
      var c := changes[i];
      assert changes[..i + 1][..i] == changes[..i];
      var at, start := Find(entries, PathOf(c)), Entry(PathOf(c), 0, 0.0, []);
      if at == None {
        entries := entries + [Add(start, c)];
      } else {
        entries := entries[at.value := Add(entries[at.value], c)];
      }
      i := i + 1;
    }
    assert changes[..i] == changes;
  }

  // ---- What is conserved -------------------------------------------------------------------------

  // The change is under the path; changes without one are the repository's.
  predicate Under(c: Change, path: string) {
    if c.key.path == "" then path == "(repository)" else path == c.key.path
  }

  // A worsened signal counts with its difference, any other with its whole impact.
  function Share(c: Change): real {
    match c
    case Plain(_, impact) => impact
    case Worsened(_, _, _, delta) => delta
  }

  function CountAt(changes: seq<Change>, path: string): nat {
    if changes == [] then 0
    else CountAt(changes[..|changes| - 1], path) + if Under(changes[|changes| - 1], path) then 1 else 0
  }

  function WeightAt(changes: seq<Change>, path: string): real {
    if changes == [] then 0.0
    else WeightAt(changes[..|changes| - 1], path) + if Under(changes[|changes| - 1], path) then
        Share(changes[|changes| - 1]) else 0.0
  }

  function ReasonsAt(changes: seq<Change>, path: string): seq<string> {
    if changes == [] then []
    else
      var rest, c := ReasonsAt(changes[..|changes| - 1], path), changes[|changes| - 1];
      if Under(c, path) && c.key.summary != "" && c.key.summary !in rest then rest + [c.key.summary] else rest
  }

  // A change at the path has this summary.
  ghost predicate IsReason(changes: seq<Change>, path: string, reason: string) {
    reason != "" && exists c {:trigger c in changes} :: c in changes && Under(c, path) && c.key.summary == reason
  }

  lemma {:induction false} IsReasonNext(changes: seq<Change>, last: Change, path: string, reason: string)
    ensures IsReason(changes + [last], path, reason)
       <==> IsReason(changes, path, reason) || (reason != "" && Under(last, path) && last.key.summary == reason)
  {
    hide Under;
    var more := changes + [last];
    assert last in more && forall c {:trigger c in changes} :: c in changes ==> c in more;
  }

  ghost predicate NoRepeats(reasons: seq<string>) {
    forall i, j {:trigger reasons[i], reasons[j]} :: 0 <= i < j < |reasons| ==> reasons[i] != reasons[j]
  }

  // The reasons at a path are the summaries of its changes, each once.
  lemma {:induction false} ReasonsTell(changes: seq<Change>, path: string, reason: string)
    ensures NoRepeats(ReasonsAt(changes, path))
    ensures reason in ReasonsAt(changes, path) <==> IsReason(changes, path, reason)
  {
    if changes != [] {
      var init, last := changes[..|changes| - 1], changes[|changes| - 1];
      ReasonsTell(init, path, reason);
      assert changes == init + [last];
      IsReasonNext(init, last, path, reason);
      hide Under, IsReason;
    }
  }

  ghost predicate OnePath(entries: seq<Entry>) {
    forall i, j {:trigger entries[i].path, entries[j].path} ::
      0 <= i < |entries| && 0 <= j < |entries| && entries[i].path == entries[j].path ==> i == j
  }

  lemma {:induction false} GatherOnePath(changes: seq<Change>)
    ensures OnePath(Gather(changes))
  {
    if changes != [] {
      GatherOnePath(changes[..|changes| - 1]);
      UpdatedPaths(Gather(changes[..|changes| - 1]), changes[|changes| - 1]);
      hide OnePath, Updated;
    }
  }

  // The entry of a path; an empty one when there is none.
  function EntryAt(entries: seq<Entry>, path: string): Entry {
    match Find(entries, path)
    case Some(i) => entries[i]
    case None => Entry(path, 0, 0.0, [])
  }

  // Every path that changed has one entry, with everything that changed there and nothing else.
  lemma {:induction false} GatherByPath(changes: seq<Change>, path: string)
    ensures OnePath(Gather(changes))
    ensures Find(Gather(changes), path).Some? <==> CountAt(changes, path) > 0
    ensures EntryAt(Gather(changes), path)
              == Entry(path, CountAt(changes, path), WeightAt(changes, path), ReasonsAt(changes, path))
  {
    GatherOnePath(changes);
    if changes != [] {
      hide OnePath, Find, Updated, EntryAt;
      var init, c := changes[..|changes| - 1], changes[|changes| - 1];
      GatherByPath(init, path);
      FindAfter(Gather(init), c, path);
    }
  }

  lemma {:induction false} FindIs(entries: seq<Entry>, i: nat)
    requires OnePath(entries) && i < |entries|
    ensures Find(entries, entries[i].path) == Some(i)
  {
  }

  lemma {:induction false} FindAfter(entries: seq<Entry>, c: Change, path: string)
    requires OnePath(entries)
    ensures Find(Updated(entries, c), path).Some? <==> path == PathOf(c) || Find(entries, path).Some?
    ensures EntryAt(Updated(entries, c), path) == if path == PathOf(c) then Add(EntryAt(entries, path), c)
              else EntryAt(entries, path)
  {
    var after, at := Updated(entries, c), Find(entries, PathOf(c));
    UpdatedPaths(entries, c);
    FindIs(after, if at.Some? then at.value else |entries|);
    if path != PathOf(c) && Find(entries, path).Some? {
      FindIs(after, Find(entries, path).value);
    }
  }

  lemma {:induction false} UpdatedPaths(entries: seq<Entry>, c: Change)
    requires OnePath(entries)
    ensures OnePath(Updated(entries, c))
  {
  }

  function TotalCount(entries: seq<Entry>): nat {
    if entries == [] then 0 else TotalCount(entries[..|entries| - 1]) + entries[|entries| - 1].count
  }

  function TotalImpact(entries: seq<Entry>): real {
    if entries == [] then 0.0 else TotalImpact(entries[..|entries| - 1]) + entries[|entries| - 1].impact
  }

  function TotalWeight(changes: seq<Change>): real {
    if changes == [] then 0.0 else TotalWeight(changes[..|changes| - 1]) + Share(changes[|changes| - 1])
  }

  lemma {:induction false} TotalsReplace(entries: seq<Entry>, i: nat, e: Entry)
    requires i < |entries|
    ensures TotalCount(entries[i := e]) == TotalCount(entries) - entries[i].count + e.count
    ensures TotalImpact(entries[i := e]) == TotalImpact(entries) - entries[i].impact + e.impact
  {
    var init := entries[..|entries| - 1];
    if i == |entries| - 1 {
      assert entries[i := e][..i] == init;
    } else {
      TotalsReplace(init, i, e);
      assert entries[i := e][..|entries| - 1] == init[i := e];
    }
  }

  // Over all paths no change and no impact is lost or counted twice.
  lemma {:induction false} GatherConserves(changes: seq<Change>)
    ensures TotalCount(Gather(changes)) == |changes| && TotalImpact(Gather(changes)) == TotalWeight(changes)
  {
    if changes != [] {
      var init, c := changes[..|changes| - 1], changes[|changes| - 1];
      GatherConserves(init);
      var entries := Gather(init);
      match Find(entries, PathOf(c))
      case Some(i) => TotalsReplace(entries, i, Add(entries[i], c));
      case None =>
        var e := Add(Entry(PathOf(c), 0, 0.0, []), c);
        assert (entries + [e])[..|entries|] == entries;
    }
  }
}
