/** The audit trail of a repository tells whether it is selected, over every run of events. */
module SelectionTrail {
  import opened Options
  import opened RepoSync

  // The selection audits of one repository, oldest first.
  function Trail(audits: seq<Audit>, id: nat): seq<Kind> {
    if audits == [] then []
    else
      var rest, a := Trail(audits[..|audits| - 1], id), audits[|audits| - 1];
      if a.repo == id then rest + [a.kind] else rest
  }

  // Selection, unselection, selection, ...
  ghost predicate Alternates(trail: seq<Kind>) {
    forall k {:trigger trail[k]} :: 0 <= k < |trail| ==> trail[k] == if k % 2 == 0 then Selection else Unselection
  }

  ghost predicate TrailTells(t: Table, id: nat) {
    && Alternates(Trail(t.audits, id))
    && (IsSelected(t, id) <==> Trail(t.audits, id) != [] && Trail(t.audits, id)[|Trail(t.audits, id)| - 1] == Selection)
  }

  lemma {:induction false} TrailAppend(audits: seq<Audit>, a: Audit, id: nat)
    ensures Trail(audits + [a], id) == if a.repo == id then Trail(audits, id) + [a.kind] else Trail(audits, id)
  {
    assert (audits + [a])[..|audits|] == audits;
  }

  // ---- Every operation keeps it ----------------------------------------------------------------

  lemma {:induction false} UpsertKeeps(t: Table, inst: nat, repo: nat, now: nat, id: nat)
    requires TrailTells(t, id)
    ensures TrailTells(Upsert(t, inst, repo, now), id)
  {
    TrailAppend(t.audits, Audit(repo, Selection), id);
    hide Trail;
  }

  lemma {:induction false} UnselectKeeps(t: Table, repo: nat, now: nat, id: nat)
    requires IsSelected(t, repo) && TrailTells(t, id)
    ensures TrailTells(Unselect(t, repo, now), id) && TrailTells(MarkDeleted(t, repo, now), id)
  {
    TrailAppend(t.audits, Audit(repo, Unselection), id);
    hide Trail;
  }

  lemma {:induction false} UpsertEachKeeps(t: Table, inst: nat, ids: seq<nat>, now: nat, id: nat)
    requires TrailTells(t, id)
    ensures TrailTells(UpsertEach(t, inst, ids, now), id)
  {
    if ids != [] {
      hide TrailTells, Upsert;
      UpsertEachKeeps(t, inst, ids[..|ids| - 1], now, id);
      UpsertKeeps(UpsertEach(t, inst, ids[..|ids| - 1], now), inst, ids[|ids| - 1], now, id);
    }
  }

  lemma {:induction false} UnselectEachKeeps(t: Table, inst: nat, keep: set<nat>, ids: seq<nat>, now: nat, id: nat)
    requires TrailTells(t, id)
    ensures TrailTells(UnselectEach(t, inst, keep, ids, now), id)
  {
    if ids != [] {
      hide TrailTells, Unselect;
      UnselectEachKeeps(t, inst, keep, ids[..|ids| - 1], now, id);
      var before := UnselectEach(t, inst, keep, ids[..|ids| - 1], now);
      if IsSelected(before, ids[|ids| - 1]) { UnselectKeeps(before, ids[|ids| - 1], now, id); }
    }
  }

  lemma {:induction false} ApplyKeeps(t: Table, e: Event, order: seq<nat>, now: nat, id: nat)
    requires TrailTells(t, id)
    ensures TrailTells(Apply(t, e, order, now), id)
  {
    match e {
      case Sync(inst, suspended, ids) =>
        var installed := Install(t, inst, suspended);
        assert TrailTells(installed, id);
        UpsertEachKeeps(installed, inst, ids, now, id);
        UnselectEachKeeps(UpsertEach(installed, inst, ids, now), inst, AsSet(ids), order, now, id);
      case Added(inst, suspended, ids) =>
        assert TrailTells(Install(t, inst, suspended), id);
        UpsertEachKeeps(Install(t, inst, suspended), inst, ids, now, id);
      case Removed(inst, suspended, ids) =>
        assert TrailTells(Install(t, inst, suspended), id);
        UnselectEachKeeps(Install(t, inst, suspended), inst, {}, ids, now, id);
      case RepositoryDeleted(inst, repo) =>
        if IsSelected(t, repo) { UnselectKeeps(t, repo, now, id); }
      case RepositoryTouched(inst, repo) => UpsertKeeps(t, inst, repo, now, id);
      case Uninstalled(inst) =>
        if inst in t.installations {
          assert TrailTells(Uninstall(t, inst), id);
          UnselectEachKeeps(Uninstall(t, inst), inst, {}, order, now, id);
        }
    }
  }

  // What happened, with the order the database chose and the time.
  datatype Occurrence = Occurrence(event: Event, order: seq<nat>, now: nat)

  function Run(run: seq<Occurrence>): Table {
    if run == [] then EMPTY
    else
      var last := run[|run| - 1];
      Apply(Run(run[..|run| - 1]), last.event, last.order, last.now)
  }

  // Over every run the audits of every repository alternate, starting with a selection, and the
  // repository is selected exactly when the last one is a selection.
  lemma {:induction false} TrailAlwaysTells(run: seq<Occurrence>, id: nat)
    ensures TrailTells(Run(run), id)
  {
    if run != [] {
      var last := run[|run| - 1];
      TrailAlwaysTells(run[..|run| - 1], id);
      ApplyKeeps(Run(run[..|run| - 1]), last.event, last.order, last.now, id);
      hide TrailTells, Apply;
    }
  }

  // ---- What a full sync leaves -------------------------------------------------------------------

  lemma {:induction false} UpsertEachSelects(t: Table, inst: nat, ids: seq<nat>, now: nat, id: nat)
    ensures SelectedIn(UpsertEach(t, inst, ids, now), inst, id) <==> id in ids || SelectedIn(t, inst, id)
    ensures id !in ids ==> (id in UpsertEach(t, inst, ids, now).rows <==> id in t.rows)
    ensures id !in ids && id in t.rows ==> UpsertEach(t, inst, ids, now).rows[id] == t.rows[id]
  {
    RowAfterUpserts(t, inst, ids, now, id);
    hide UpsertEach;
  }

  lemma {:induction false} UnselectEachLeaves(t: Table, inst: nat, keep: set<nat>, ids: seq<nat>, now: nat, id: nat)
    ensures SelectedIn(UnselectEach(t, inst, keep, ids, now), inst, id)
       <==> SelectedIn(t, inst, id) && (id in keep || id !in ids)
    ensures !SelectedIn(t, inst, id) || id in keep ==>
              (id in UnselectEach(t, inst, keep, ids, now).rows <==> id in t.rows)
              && (id in t.rows ==> UnselectEach(t, inst, keep, ids, now).rows[id] == t.rows[id])
  {
    RowAfterUnselects(t, inst, keep, ids, now, id);
    hide UnselectEach;
  }

  // ---- What an event does to a row -----------------------------------------------------------------

  function RowOf(t: Table, id: nat): Option<Row> {
    if id in t.rows then Some(t.rows[id]) else None
  }

  // Neither unselected nor deleted.
  predicate On(row: Option<Row>) {
    row.Some? && row.value.unselectedAt == None && row.value.deletedAt == None
  }

  predicate OnAt(row: Option<Row>, inst: nat) {
    On(row) && row.value.installation == inst
  }

  // Selected for the installation: since now, unless it was selected already.
  function SelectedRow(row: Option<Row>, inst: nat, now: nat): Row {
    Row(inst, if On(row) then row.value.selectedAt else now, None, None)
  }

  // Present, and neither suspended nor deleted.
  predicate Works(t: Table, inst: nat) {
    inst in t.installations && t.installations[inst] == Installation(false, false)
  }

  // The row of a repository after an event.
  function RowAfter(t: Table, e: Event, now: nat, id: nat): Option<Row> {
    var row := RowOf(t, id);
    match e
    case Sync(inst, _, ids) =>
      if id in ids then Some(SelectedRow(row, inst, now))
      else if OnAt(row, inst) then Some(row.value.(unselectedAt := Some(now)))
      else row
    case Added(inst, _, ids) => if id in ids then Some(SelectedRow(row, inst, now)) else row
    case Removed(inst, _, ids) =>
      if id in ids && OnAt(row, inst) then Some(row.value.(unselectedAt := Some(now))) else row
    case RepositoryDeleted(inst, repo) =>
      if id == repo && OnAt(row, inst) && Works(t, inst) then Some(row.value.(deletedAt := Some(now))) else row
    case RepositoryTouched(inst, repo) => if id == repo
        && Works(t, inst) then Some(SelectedRow(row, inst, now)) else row
    case Uninstalled(inst) =>
      if inst in t.installations && OnAt(row, inst) then Some(row.value.(unselectedAt := Some(now))) else row
  }

  // The installations after an event: reported ones are not deleted, an uninstalled one is.
  function InstallationsAfter(t: Table, e: Event): map<nat, Installation> {
    match e
    case Sync(inst, suspended, _) => t.installations[inst := Installation(suspended, false)]
    case Added(inst, suspended, _) => t.installations[inst := Installation(suspended, false)]
    case Removed(inst, suspended, _) => t.installations[inst := Installation(suspended, false)]
    case Uninstalled(inst) =>
      if inst in t.installations then t.installations[inst := Installation(t.installations[inst].suspended, true)]
      else t.installations
    case _ => t.installations
  }

  lemma {:induction false} InOrLast(ids: seq<nat>, id: nat)
    requires ids != []
    ensures id in ids <==> id in ids[..|ids| - 1] || id == ids[|ids| - 1]
  {
    assert ids == ids[..|ids| - 1] + [ids[|ids| - 1]];
  }

  lemma {:induction false} RowAfterUpserts(t: Table, inst: nat, ids: seq<nat>, now: nat, id: nat)
    ensures RowOf(UpsertEach(t, inst, ids, now), id)
         == if id in ids then Some(SelectedRow(RowOf(t, id), inst, now)) else RowOf(t, id)
  {
    if ids != [] {
      RowAfterUpserts(t, inst, ids[..|ids| - 1], now, id);
      InOrLast(ids, id);
    }
  }

  lemma {:induction false} RowAfterUnselects(t: Table, inst: nat, keep: set<nat>, ids: seq<nat>, now: nat, id: nat)
    ensures RowOf(UnselectEach(t, inst, keep, ids, now), id)
         == if id in ids && id !in keep && OnAt(RowOf(t, id), inst) then
              Some(RowOf(t, id).value.(unselectedAt := Some(now)))
            else RowOf(t, id)
  {
    if ids != [] {
      RowAfterUnselects(t, inst, keep, ids[..|ids| - 1], now, id);
      InOrLast(ids, id);
    }
  }

  // An event changes exactly the rows it tells about, whatever order the database lists them in: the
  // listed are selected, those to be unselected keep the time they were selected, and a repository is
  // deleted or touched only under an installation that works.
  lemma {:induction false} EventChangesRow(t: Table, e: Event, order: seq<nat>, now: nat, id: nat)
    requires Complete(t, e, order, now)
    ensures RowOf(Apply(t, e, order, now), id) == RowAfter(t, e, now, id)
    ensures Apply(t, e, order, now).installations == InstallationsAfter(t, e)
  {
    match e {
      case Sync(inst, suspended, ids) =>
        var selected := UpsertEach(Install(t, inst, suspended), inst, ids, now);
        RowAfterUpserts(Install(t, inst, suspended), inst, ids, now, id);
        RowAfterUnselects(selected, inst, AsSet(ids), order, now, id);
        SyncInstalls(t, inst, suspended, ids, order, now);
        assert OnAt(RowOf(selected, id), inst) <==> SelectedIn(selected, inst, id);
        hide UpsertEach, UnselectEach;
      case Added(inst, suspended, ids) =>
        RowAfterUpserts(Install(t, inst, suspended), inst, ids, now, id);
        UpsertEachInstallations(Install(t, inst, suspended), inst, ids, now);
      case Removed(inst, suspended, ids) =>
        RowAfterUnselects(Install(t, inst, suspended), inst, {}, ids, now, id);
        UnselectEachInstallations(Install(t, inst, suspended), inst, {}, ids, now);
      case RepositoryDeleted(inst, repo) =>
      case RepositoryTouched(inst, repo) =>
      case Uninstalled(inst) =>
        if inst in t.installations {
          RowAfterUnselects(Uninstall(t, inst), inst, {}, order, now, id);
          UnselectEachInstallations(Uninstall(t, inst), inst, {}, order, now);
          assert OnAt(RowOf(t, id), inst) <==> SelectedIn(t, inst, id);
        }
    }
  }

  // After a full sync the installation's selected repositories are exactly the listed ones.
  lemma {:induction false} SyncSelectsExactly(t: Table, inst: nat, suspended: bool, ids: seq<nat>, order: seq<nat>,
        now: nat, id: nat)
    requires Complete(t, Sync(inst, suspended, ids), order, now)
    ensures SelectedIn(Apply(t, Sync(inst, suspended, ids), order, now), inst, id) <==> id in ids
  {
    var selected := UpsertEach(Install(t, inst, suspended), inst, ids, now);
    UpsertEachSelects(Install(t, inst, suspended), inst, ids, now, id);
    UnselectEachLeaves(selected, inst, AsSet(ids), order, now, id);
    assert SelectedIn(selected, inst, id) ==> id in order;
  }

  // ... and rows of other installations that are not listed keep what they are.
  lemma {:induction false} SyncLeavesOthers(t: Table, inst: nat, suspended: bool, ids: seq<nat>, order: seq<nat>,
        now: nat, id: nat)
    requires id in t.rows && t.rows[id].installation != inst && id !in ids
    ensures var after := Apply(t, Sync(inst, suspended, ids), order, now);
            id in after.rows && after.rows[id] == t.rows[id]
  {
    UpsertEachSelects(Install(t, inst, suspended), inst, ids, now, id);
    UnselectEachLeaves(UpsertEach(Install(t, inst, suspended), inst, ids, now), inst, AsSet(ids), order, now, id);
  }

  lemma {:induction false} UpsertAgain(t: Table, inst: nat, ids: seq<nat>, now: nat)
    requires forall k {:trigger ids[k]} :: 0 <= k < |ids| ==> SelectedIn(t, inst, ids[k])
    ensures UpsertEach(t, inst, ids, now) == t
  {
    if ids != [] {
      UpsertAgain(t, inst, ids[..|ids| - 1], now);
      assert SelectedIn(t, inst, ids[|ids| - 1]);
      assert t.rows[ids[|ids| - 1] := t.rows[ids[|ids| - 1]]] == t.rows;
    }
  }

  lemma {:induction false} NothingToUnselect(t: Table, inst: nat, keep: set<nat>, ids: seq<nat>, now: nat)
    requires forall id {:trigger SelectedIn(t, inst, id)} :: SelectedIn(t, inst, id) ==> id in keep
    ensures UnselectEach(t, inst, keep, ids, now) == t
  {
    if ids != [] { NothingToUnselect(t, inst, keep, ids[..|ids| - 1], now); }
  }

  // Repeating the sync changes no row and writes no selection audit.
  lemma {:induction false} SyncTwiceIsOnce(t: Table, inst: nat, suspended: bool, ids: seq<nat>, order: seq<nat>,
        now: nat, order': seq<nat>, now': nat)
    requires Complete(t, Sync(inst, suspended, ids), order, now)
    ensures var once := Apply(t, Sync(inst, suspended, ids), order, now);
            Apply(once, Sync(inst, suspended, ids), order', now') == once
  {
    var e := Sync(inst, suspended, ids);
    var once := Apply(t, e, order, now);
    forall id: nat
      ensures SelectedIn(once, inst, id) <==> id in ids
    {
      SyncSelectsExactly(t, inst, suspended, ids, order, now, id);
    }
    SyncInstalls(t, inst, suspended, ids, order, now);
    assert Install(once, inst, suspended) == once;
    UpsertAgain(once, inst, ids, now');
    NothingToUnselect(once, inst, AsSet(ids), order', now');
  }

  lemma {:induction false} SyncInstalls(t: Table, inst: nat, suspended: bool, ids: seq<nat>, order: seq<nat>, now: nat)
    ensures Apply(t, Sync(inst, suspended, ids), order, now).installations == Install(t, inst, suspended).installations
  {
    UpsertEachInstallations(Install(t, inst, suspended), inst, ids, now);
    UnselectEachInstallations(UpsertEach(Install(t, inst, suspended), inst, ids, now), inst, AsSet(ids), order, now);
  }

  lemma {:induction false} UpsertEachInstallations(t: Table, inst: nat, ids: seq<nat>, now: nat)
    ensures UpsertEach(t, inst, ids, now).installations == t.installations
  {
    if ids != [] { UpsertEachInstallations(t, inst, ids[..|ids| - 1], now); }
  }

  lemma {:induction false} UnselectEachInstallations(t: Table, inst: nat, keep: set<nat>, ids: seq<nat>, now: nat)
    ensures UnselectEach(t, inst, keep, ids, now).installations == t.installations
  {
    if ids != [] { UnselectEachInstallations(t, inst, keep, ids[..|ids| - 1], now); }
  }

  // An uninstalled installation has no selected repository left.
  lemma {:induction false} UninstallUnselectsAll(t: Table, inst: nat, order: seq<nat>, now: nat, id: nat)
    requires inst in t.installations && Complete(t, Uninstalled(inst), order, now)
    ensures !SelectedIn(Apply(t, Uninstalled(inst), order, now), inst, id)
  {
    UnselectEachLeaves(Uninstall(t, inst), inst, {}, order, now, id);
    assert SelectedIn(t, inst, id) ==> id in order;
  }
}
