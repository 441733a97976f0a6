/**
 Which repositories are selected: rows that are selected, unselected and marked deleted as GitHub
 reports on an installation, and the audit trail written along the way.
 */
module RepoSync {
  import opened Options

  datatype Row = Row(installation: nat, selectedAt: nat, unselectedAt: Option<nat>, deletedAt: Option<nat>)

  datatype Installation = Installation(suspended: bool, deleted: bool)

  datatype Kind = Selection | Unselection

  datatype Audit = Audit(repo: nat, kind: Kind)

  datatype Table = Table(rows: map<nat, Row>, installations: map<nat, Installation>, audits: seq<Audit>)

  const EMPTY := Table(map[], map[], [])

  predicate IsSelected(t: Table, id: nat) {
    id in t.rows && t.rows[id].unselectedAt == None && t.rows[id].deletedAt == None
  }

  predicate SelectedIn(t: Table, inst: nat, id: nat) {
    IsSelected(t, id) && t.rows[id].installation == inst
  }

  predicate ActiveInstallation(t: Table, inst: nat) {
    inst in t.installations && !t.installations[inst].suspended && !t.installations[inst].deleted
  }

  // The row is created, revived or left selected, and now belongs to this installation.
  function Upsert(t: Table, inst: nat, id: nat, now: nat): Table {
    if IsSelected(t, id) then t.(rows := t.rows[id := t.rows[id].(installation := inst)])
    else t.(rows := t.rows[id := Row(inst, now, None, None)], audits := t.audits + [Audit(id, Selection)])
  }

  function Unselect(t: Table, id: nat, now: nat): Table
    requires IsSelected(t, id)
  {
    t.(rows := t.rows[id := t.rows[id].(unselectedAt := Some(now))], audits := t.audits + [Audit(id, Unselection)])
  }

  function MarkDeleted(t: Table, id: nat, now: nat): Table
    requires IsSelected(t, id)
  {
    t.(rows := t.rows[id := t.rows[id].(deletedAt := Some(now))], audits := t.audits + [Audit(id, Unselection)])
  }

  function UpsertEach(t: Table, inst: nat, ids: seq<nat>, now: nat): Table {
    if ids == [] then t else Upsert(UpsertEach(t, inst, ids[..|ids| - 1], now), inst, ids[|ids| - 1], now)
  }

  // Unselect the listed repositories of the installation that are selected and not to be kept.
  function UnselectEach(t: Table, inst: nat, keep: set<nat>, ids: seq<nat>, now: nat): Table {
    if ids == [] then t
    else
      var before, id := UnselectEach(t, inst, keep, ids[..|ids| - 1], now), ids[|ids| - 1];
      if SelectedIn(before, inst, id) && id !in keep then Unselect(before, id, now) else before
  }

  function AsSet(ids: seq<nat>): set<nat> {
    set id | id in ids
  }

  // What GitHub, or a refresh, tells about an installation or a repository.
  datatype Event =
    | Sync(inst: nat, suspended: bool, ids: seq<nat>)
    | Added(inst: nat, suspended: bool, ids: seq<nat>)
    | Removed(inst: nat, suspended: bool, ids: seq<nat>)
    | RepositoryDeleted(inst: nat, repo: nat)
    | RepositoryTouched(inst: nat, repo: nat)
    | Uninstalled(inst: nat)

  function Install(t: Table, inst: nat, suspended: bool): Table {
    t.(installations := t.installations[inst := Installation(suspended, false)])
  }

  function Uninstall(t: Table, inst: nat): Table
    requires inst in t.installations
  {
    t.(installations := t.installations[inst := t.installations[inst].(deleted := true)])
  }

  // The table after an event; `order` is the order in which the database lists the rows to unselect.
  function Apply(t: Table, e: Event, order: seq<nat>, now: nat): Table {
    match e
    case Sync(inst, suspended, ids) =>
      UnselectEach(UpsertEach(Install(t, inst, suspended), inst, ids, now), inst, AsSet(ids), order, now)
    case Added(inst, suspended, ids) => UpsertEach(Install(t, inst, suspended), inst, ids, now)
    case Removed(inst, suspended, ids) => UnselectEach(Install(t, inst, suspended), inst, {}, ids, now)
    case RepositoryDeleted(inst, repo) =>
      if SelectedIn(t, inst, repo) && ActiveInstallation(t, inst) then MarkDeleted(t, repo, now) else t
    case RepositoryTouched(inst, repo) => if ActiveInstallation(t, inst) then Upsert(t, inst, repo, now) else t
    case Uninstalled(inst) => if inst in t.installations then UnselectEach(Uninstall(t, inst), inst, {}, order, now)
        else t
  }

  // Every selected repository of the installation is listed.
  ghost predicate Lists(t: Table, inst: nat, order: seq<nat>) {
    forall id {:trigger SelectedIn(t, inst, id)} :: SelectedIn(t, inst, id) ==> id in order
  }

  // The order lists what the event has to go through.
  ghost predicate Complete(t: Table, e: Event, order: seq<nat>, now: nat) {
    match e
    case Sync(inst, suspended, ids) => Lists(UpsertEach(Install(t, inst, suspended), inst, ids, now), inst, order)
    case Uninstalled(inst) => Lists(t, inst, order)
    case _ => true
  }

  // ---- The service's operations --------------------------------------------------------------

  class RepositoryTable {
    var rows: map<nat, Row>
    var installations: map<nat, Installation>
    var audits: seq<Audit>

    constructor ()
      ensures Value() == EMPTY
    {
      rows, installations, audits := map[], map[], [];
    }

    function Value(): Table
      reads this
    {
      Table(rows, installations, audits)
    }

    method UpsertRepository(inst: nat, id: nat, now: nat) returns (newly: bool)
      modifies this`rows, this`audits
      ensures Value() == Upsert(old(Value()), inst, id, now)
      ensures newly == !IsSelected(old(Value()), id)
    {
      newly := id !in rows || rows[id].unselectedAt != None || rows[id].deletedAt != None;
      var selectedAt := if newly then now else rows[id].selectedAt;
      rows := rows[id := Row(inst, selectedAt, None, None)];
      if newly { audits := audits + [Audit(id, Selection)]; }
    }

    method SelectPayloads(inst: nat, ids: seq<nat>, now: nat) returns (newly: seq<nat>)
      modifies this`rows, this`audits
      ensures Value() == UpsertEach(old(Value()), inst, ids, now)
      ensures |audits| == |old(audits)| + |newly|
      ensures forall k {:trigger newly[k]} :: 0 <= k < |newly| ==>
                audits[|old(audits)| + k] == Audit(newly[k], Selection)
    {
      newly := [];
      var i := 0;
      while i < |ids|
        invariant 0 <= i <= |ids| && Value() == UpsertEach(old(Value()), inst, ids[..i], now)
        invariant |audits| == |old(audits)| + |newly|
        invariant forall k {:trigger newly[k]} :: 0 <= k < |newly| ==>
                    audits[|old(audits)| + k] == Audit(newly[k], Selection)
      {
        assert ids[..i + 1][..i] == ids[..i];
        var isNew := UpsertRepository(inst, ids[i], now);
        if isNew { newly := newly + [ids[i]]; }
        i := i + 1;
      }
      assert ids[..i] == ids;
    }

    method UnselectListed(inst: nat, ids: seq<nat>, ghost keep: set<nat>, now: nat) returns (count: nat)
      requires forall k {:trigger ids[k]} :: 0 <= k < |ids| ==> ids[k] !in keep
      modifies this`rows, this`audits
      ensures Value() == UnselectEach(old(Value()), inst, keep, ids, now)
      ensures |audits| == |old(audits)| + count
    {
      count := 0;
      var i := 0;
      while i < |ids|
        invariant 0 <= i <= |ids| && Value() == UnselectEach(old(Value()), inst, keep, ids[..i], now)
        invariant |audits| == |old(audits)| + count
      {
        var id := ids[i];
        assert ids[..i + 1][..i] == ids[..i];
        i := i + 1;
        if !SelectedIn(Value(), inst, id) { continue; }
        rows := rows[id := rows[id].(unselectedAt := Some(now))];
        audits := audits + [Audit(id, Unselection)];
        count := count + 1;
      }
      assert ids[..i] == ids;
    }

    // The query for the installation's selected rows outside `keep`, in some order.
    method SelectedRows(inst: nat, keep: set<nat>) returns (ids: seq<nat>)
      ensures forall k {:trigger ids[k]} :: 0 <= k < |ids| ==> ids[k] !in keep
      ensures forall id {:trigger SelectedIn(Value(), inst, id)} :: SelectedIn(Value(), inst, id) && id !in keep ==>
                id in ids
    {
      ids := [];
      var rest := rows.Keys;
      while rest != {}
        invariant rest <= rows.Keys
        invariant forall k {:trigger ids[k]} :: 0 <= k < |ids| ==> ids[k] !in keep
        invariant forall id {:trigger SelectedIn(Value(), inst, id)} ::
                    SelectedIn(Value(), inst, id) && id !in keep ==> id in rest || id in ids
        decreases |rest|
      {
        var id :| id in rest;
        rest := rest - {id};
        if SelectedIn(Value(), inst, id) && id !in keep { ids := ids + [id]; }
      }
    }

    method SyncRepositories(inst: nat, suspended: bool, ids: seq<nat>, now: nat)
      returns (newly: seq<nat>, ghost order: seq<nat>)
      modifies this
      ensures Value() == Apply(old(Value()), Sync(inst, suspended, ids), order, now)
      ensures Complete(old(Value()), Sync(inst, suspended, ids), order, now)
    {
      installations := installations[inst := Installation(suspended, false)];
      newly := SelectPayloads(inst, ids, now);
      var granted := AsSet(ids);
      var stale := SelectedRows(inst, granted);
      ghost var selected := Value();
      var count := UnselectListed(inst, stale, granted, now);
      order := stale + ids;
      KeptChangesNothing(selected, inst, granted, stale, ids, now);
    }

    method MarkInstallationDeleted(inst: nat, now: nat) returns (count: nat, ghost order: seq<nat>)
      modifies this
      ensures Value() == Apply(old(Value()), Uninstalled(inst), order, now)
      ensures Complete(old(Value()), Uninstalled(inst), order, now)
    {
      count, order := 0, [];
      var active := SelectedRows(inst, {});
      order := active;
      assert Value() == old(Value());
      assert forall id {:trigger SelectedIn(Value(), inst, id)} :: SelectedIn(Value(), inst, id) ==> id in active;
      if inst in installations {
        installations := installations[inst := installations[inst].(deleted := true)];
        count := UnselectListed(inst, active, {}, now);
      }
    }

    method ProcessRepository(e: Event, now: nat)
      requires e.RepositoryDeleted? || e.RepositoryTouched?
      modifies this
      ensures Value() == Apply(old(Value()), e, [], now)
    {
      if e.RepositoryDeleted? {
        if SelectedIn(Value(), e.inst, e.repo) && ActiveInstallation(Value(), e.inst) {
          rows := rows[e.repo := rows[e.repo].(deletedAt := Some(now))];
          audits := audits + [Audit(e.repo, Unselection)];
        }
      } else if ActiveInstallation(Value(), e.inst) {
        var newly := UpsertRepository(e.inst, e.repo, now);
      }
    }
  }

  // Listing repositories that are kept makes no difference.
  lemma {:induction false} KeptChangesNothing(t: Table, inst: nat, keep: set<nat>, ids: seq<nat>, kept: seq<nat>,
        now: nat)
    requires forall k {:trigger kept[k]} :: 0 <= k < |kept| ==> kept[k] in keep
    ensures UnselectEach(t, inst, keep, ids + kept, now) == UnselectEach(t, inst, keep, ids, now)
  {
    if kept == [] {
      assert ids + kept == ids;
    } else {
      assert (ids + kept)[..|ids + kept| - 1] == ids + kept[..|kept| - 1];
      KeptChangesNothing(t, inst, keep, ids, kept[..|kept| - 1], now);
    }
  }
}
