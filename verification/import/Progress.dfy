/** What the worker may rely on between two durable writes of a step. */
module ImportProgress {
  import opened Wrappers
  import opened Upserts
  import opened ImportSource
  import opened RowTables
  import opened LinkTables
  import opened IdMapping
  import opened ImportTarget

  lemma {:induction false} NothingToDo(w: Writes, v: View)
    requires w == map[]
    ensures Commit(w, v) == v
  {
  }

  // ---- entities: mappings are recorded after the commit ----

  /** Candidate `r` has its mapping, or needs none. */
  ghost predicate Mapped(m: Mappings, s: Step, r: SourceRow)
    requires s.HasRows()
  {
    r.id.Some? && r.key !in s.hidden ==> MapKey(s.name, r.id.value) in m
  }

  lemma {:induction false} PageRecorded(m: Mappings, s: Step, p: nat, cands: seq<SourceRow>)
    requires s.HasRows() && p < RowPages(s) && RecordedUpTo(m, s, p)
    requires Lists(cands, PageCandidates(s, p))
    requires forall i | 0 <= i < |cands| :: Mapped(m, s, cands[i])
    ensures RecordedUpTo(m, s, p + 1)
  {
    var d, n := PageCandidates(s, p), p + 1;
    forall id, key | ImportedBy(s, n, id, key) ensures MapKey(s.name, id) in m {
      var q :| 0 <= q < n && OnPage(s, q, id, key);
      if q < p {
        assert ImportedBy(s, p, id, key);
      } else {
        var i := Position(cands, d, key);
        assert Mapped(m, s, cands[i]);
      }
    }
  }

  /** Where candidate `key` stands in the list. */
  lemma {:induction false} Position(cands: seq<SourceRow>, d: map<string, SourceRow>, key: string) returns (i: nat)
    requires Lists(cands, d) && key in d
    ensures i < |cands| && cands[i] == d[key]
  {
    i := PositionIn(cands, |cands|, key);
  }

  lemma {:induction false} PositionIn(cands: seq<SourceRow>, n: nat, key: string) returns (i: nat)
    requires n <= |cands| && key in KeysOf(cands, n)
    ensures i < n && cands[i].key == key
  {
    if cands[n - 1].key == key {
      i := n - 1;
    } else {
      i := PositionIn(cands, n - 1, key);
    }
  }

  /** The checkpoint behind page `p` goes back to page `p`. */
  lemma {:induction false} EntityCheckpoint(job: Job, k: nat, p: nat, page: nat)
    requires job.Ok() && k < |job.steps| && job.steps[k].Entity? && Selected(job.selected, job.steps[k].name)
    requires p < RowPages(job.steps[k]) && page == p + 1
    ensures ResumesAt(job.steps, job.selected, Checkpoint(job.steps[k].name, page), k, p)
  {
  }

  /** With all its mappings recorded, page `p` of an entity step is finished. */
  lemma {:induction false} EntityPageDone(job: Job, s: Snapshot, k: nat, p: nat, cands: seq<SourceRow>)
    requires AliveAt(job, s, k, p + 1, p) && k < |job.steps| && job.steps[k].Entity? && p < RowPages(job.steps[k])
    requires Lists(cands, PageCandidates(job.steps[k], p))
    requires forall i | 0 <= i < |cands| :: Mapped(s.cache, job.steps[k], cands[i])
    ensures AliveAt(job, s, k, p + 1, p + 1)
  {
    PageRecorded(s.cache, job.steps[k], p, cands);
  }

  /** What the second lookup of a page transaction returns: the ids of all its rows, by natural key. */
  ghost predicate PageIds(s: Step, p: nat, t: Table, ids: map<string, nat>)
    requires s.HasRows() && p < |s.pages|
  {
    && ids.Keys == PageCandidates(s, p).Keys - s.hidden
    && forall key :: key in ids ==> ids[key] in t && t[ids[key]].key == key
  }

  lemma {:induction false} PageIdsFound(s: Step, p: nat, t: Table, t': Table, next: nat, ids: map<string, nat>)
    requires s.HasRows() && p < |s.pages| && Keys(t) !! s.hidden
    requires PageEffect(t, t', next, PageCandidates(s, p), s.defaults, s.hidden, s.Entity?)
    requires ids.Keys == PageCandidates(s, p).Keys * Keys(t')
    requires forall key :: key in ids ==> ids[key] in t' && t'[ids[key]].key == key
    ensures PageIds(s, p, t', ids)
  {
  }

  lemma {:induction false} PageIdsAt(s: Step, p: nat, t: Table, ids: map<string, nat>, r: SourceRow)
    requires s.HasRows() && p < RowPages(s) && PageIds(s, p, t, ids)
    requires r.key in PageCandidates(s, p) && PageCandidates(s, p)[r.key] == r
    ensures r.key in ids <==> r.key !in s.hidden
    ensures r.key in ids ==> ids[r.key] in t && t[ids[r.key]].key == r.key
    ensures r.key in ids && r.id.Some? ==> Importable(s, r.id.value, r.key)
  {
    if r.key in ids && r.id.Some? {
      OnPageImportable(s, p, r);
    }
  }

  lemma {:induction false} NoMappings(job: Job, db: Db)
    requires Holds(job.steps, db, job.start)
    ensures MappingsOk(job.steps, map[], db)
  {
    forall k | 0 <= k < |job.steps| && job.steps[k].HasRows() ensures MappingOk(map[], job.steps[k], db) {
      assert TableOk(db, job.steps[k], job.start);
    }
  }

  lemma {:induction false} OnPageImportable(s: Step, p: nat, r: SourceRow)
    requires s.HasRows() && p < RowPages(s) && r.id.Some? && r.key !in s.hidden
    requires r.key in PageCandidates(s, p) && PageCandidates(s, p)[r.key] == r
    ensures Importable(s, r.id.value, r.key)
  {
    assert OnPage(s, p, r.id.value, r.key);
  }

  // ---- messages: mappings are recorded inside the transaction ----

  /** Source id `id` is mapped to the row of natural key `key`. */
  ghost predicate Fresh(m: Mappings, s: Step, t: Table, id: nat, key: string) {
    MapKey(s.name, id) in m && m[MapKey(s.name, id)] in t && t[m[MapKey(s.name, id)]].key == key
  }

  /** The messages of the first `n` pages have been mapped anew by this process. */
  ghost predicate FreshUpTo(m: Mappings, s: Step, t: Table, n: nat)
    requires s.HasRows() && n <= RowPages(s)
  {
    forall id, key {:trigger ImportedBy(s, n, id, key)} :: ImportedBy(s, n, id, key) ==> Fresh(m, s, t, id, key)
  }

  ghost predicate MappedAnew(m: Mappings, s: Step, t: Table, r: SourceRow)
    requires s.HasRows()
  {
    r.id.Some? && r.key !in s.hidden ==> Fresh(m, s, t, r.id.value, r.key)
  }

  lemma {:induction false} FreshAfterRows(m: Mappings, s: Step, t: Table, t': Table, n: nat)
    requires s.HasRows() && n <= RowPages(s) && FreshUpTo(m, s, t, n) && Grows(t, t')
    ensures FreshUpTo(m, s, t', n)
  {
    forall id, key | ImportedBy(s, n, id, key) ensures Fresh(m, s, t', id, key) {
      assert Fresh(m, s, t, id, key);
    }
  }

  lemma {:induction false} FreshAfterRecord(m: Mappings, s: Step, t: Table, n: nat, id: nat, key: string, v: nat)
    requires s.HasRows() && n <= RowPages(s) && FreshUpTo(m, s, t, n) && IdsConsistent(s)
    requires Importable(s, id, key) && v in t && t[v].key == key
    ensures FreshUpTo(m[MapKey(s.name, id) := v], s, t, n)
  {
    forall id', key' | ImportedBy(s, n, id', key') ensures Fresh(m[MapKey(s.name, id) := v], s, t, id', key') {
      assert Fresh(m, s, t, id', key');
      assert Importable(s, id', key');
    }
  }

  lemma {:induction false} MappedAnewKept(m: Mappings, s: Step, t: Table, r: SourceRow, id: nat, key: string, v: nat)
    requires s.HasRows() && IdsConsistent(s) && MappedAnew(m, s, t, r)
    requires r.id.Some? && r.key !in s.hidden ==> Importable(s, r.id.value, r.key)
    requires Importable(s, id, key) && v in t && t[v].key == key
    ensures MappedAnew(m[MapKey(s.name, id) := v], s, t, r)
  {
  }

  /** Recording candidate `r` maps it anew and keeps those before it so. */
  lemma {:induction false} MappingsKeptAnew(m: Mappings, s: Step, t: Table, p: nat, cands: seq<SourceRow>, n: nat,
                                            r: SourceRow, v: nat)
    requires s.HasRows() && p < RowPages(s) && IdsConsistent(s) && FreshUpTo(m, s, t, p)
    requires Lists(cands, PageCandidates(s, p)) && n < |cands| && cands[n] == r
    requires forall j | 0 <= j < n :: MappedAnew(m, s, t, cands[j])
    requires r.id.Some? && Importable(s, r.id.value, r.key) && v in t && t[v].key == r.key
    ensures var m' := m[MapKey(s.name, r.id.value) := v];
            FreshUpTo(m', s, t, p) && forall j | 0 <= j <= n :: MappedAnew(m', s, t, cands[j])
  {
    FreshAfterRecord(m, s, t, p, r.id.value, r.key, v);
    forall j | 0 <= j < n ensures MappedAnew(m[MapKey(s.name, r.id.value) := v], s, t, cands[j]) {
      if cands[j].id.Some? && cands[j].key !in s.hidden {
        OnPageImportable(s, p, cands[j]);
      }
      MappedAnewKept(m, s, t, cands[j], r.id.value, r.key, v);
    }
  }

  lemma {:induction false} PageMappedAnew(m: Mappings, s: Step, t: Table, p: nat, cands: seq<SourceRow>)
    requires s.HasRows() && p < RowPages(s) && FreshUpTo(m, s, t, p)
    requires Lists(cands, PageCandidates(s, p))
    requires forall i | 0 <= i < |cands| :: MappedAnew(m, s, t, cands[i])
    ensures FreshUpTo(m, s, t, p + 1)
  {
    var d, n := PageCandidates(s, p), p + 1;
    forall id, key | ImportedBy(s, n, id, key) ensures Fresh(m, s, t, id, key) {
      var q :| 0 <= q < n && OnPage(s, q, id, key);
      if q < p {
        assert ImportedBy(s, p, id, key);
      } else {
        var i := Position(cands, d, key);
        assert MappedAnew(m, s, t, cands[i]);
      }
    }
  }

  /** Whatever dangled has been overwritten once every page has been read again. */
  lemma {:induction false} FreshResolves(m: Mappings, s: Step, t: Table)
    requires s.HasRows() && FreshUpTo(m, s, t, RowPages(s)) && KnownFor(m, s)
    ensures Resolves(m, s, t)
  {
    forall id | MapKey(s.name, id) in m
      ensures m[MapKey(s.name, id)] in t && Importable(s, id, t[m[MapKey(s.name, id)]].key)
    {
      var key :| Importable(s, id, key);
      assert Fresh(m, s, t, id, key);
    }
    forall id, key | Importable(s, id, key) ensures MapKey(s.name, id) in m {
      assert Fresh(m, s, t, id, key);
    }
  }

  /** Recording a message, whether or not its row will survive, touches nothing the rest relies on. */
  lemma {:induction false} RecordingMessageKeeps(job: Job, s: Snapshot, k: nat, i: nat, p: nat, id: nat, key: string,
                                                 n: nat)
    requires AliveAt(job, s, k, i, p) && k < |job.steps| && job.steps[k].Messages?
    requires Importable(job.steps[k], id, key)
    ensures AliveAt(job, Recording(s, MapKey(job.steps[k].name, id), n), k, i, p)
  {
    var s' := Recording(s, MapKey(job.steps[k].name, id), n);
    MessageMappingsKept(job, s, k, id, key, n);
    RecordedGrows(job.steps, job.selected, s.cache, s'.cache, k, p);
    CheckpointStays(job.steps, job.selected, s.checkpoint, s.rows, s.position, s'.rows, s.position);
  }

  lemma {:induction false} MessageMappingsKept(job: Job, s: Snapshot, k: nat, id: nat, key: string, n: nat)
    requires job.Ok() && k < |job.steps| && job.steps[k].Messages? && Importable(job.steps[k], id, key)
    requires MappingsOk(job.steps, s.cache, s.db) && MappingsOk(job.steps, s.rows, s.db)
    requires Agree(job.steps, s.cache, s.rows)
    ensures var s' := Recording(s, MapKey(job.steps[k].name, id), n);
            && MappingsOk(job.steps, s'.cache, s.db) && MappingsOk(job.steps, s'.rows, s.db)
            && Agree(job.steps, s'.cache, s'.rows)
  {
    var steps, s' := job.steps, Recording(s, MapKey(job.steps[k].name, id), n);
    forall j | 0 <= j < |steps| && steps[j].HasRows()
      ensures MappingOk(s'.cache, steps[j], s.db) && MappingOk(s'.rows, steps[j], s.db)
    {
      assert MappingOk(s.cache, steps[j], s.db) && MappingOk(s.rows, steps[j], s.db);
      if j != k {
        TablesDiffer(steps, job.selected, j, k);
      }
    }
    forall j | 0 <= j < |steps| && steps[j].Entity? ensures AgreeOn(steps[j], s'.cache, s'.rows) {
      assert AgreeOn(steps[j], s.cache, s.rows);
      TablesDiffer(steps, job.selected, j, k);
    }
  }

  /** The id a page transaction finds for a key was there before exactly if the key was. */
  lemma {:induction false} FoundBefore(t: Table, t': Table, next: nat, d: map<string, SourceRow>, s: Step, key: string,
                                       id: nat)
    requires s.HasRows() && PageEffect(t, t', next, d, s.defaults, s.hidden, s.Entity?) && NoDuplicates(t')
    requires id in t' && t'[id].key == key
    ensures id in t <==> key in Keys(t)
  {
    if key in Keys(t) {
      var i :| i in t && t[i].key == key;
      assert t'[i].key == key;
      assert SameKey(t', i, id);
    }
  }

  /** That is why mapping rows of messages alone prove nothing. A message of the page that had no mapping row is
      recorded and its transaction rolls back: the row then leads nowhere exactly if the message was new, and the
      state is otherwise sound. */
  lemma {:induction false} MessageMappingMayDangle(job: Job, s: Snapshot, k: nat, p: nat, id: nat, key: string,
                                                   t': Table, next': nat, ids: map<string, nat>, drawn: nat)
    requires AliveAt(job, s, k, p, 0) && k < |job.steps| && job.steps[k].Messages?
    requires p < RowPages(job.steps[k]) && OnPage(job.steps[k], p, id, key)
    requires MapKey(job.steps[k].name, id) !in s.rows && TableOk(s.db, job.steps[k], s.view)
    requires PageEffect(s.db.tables[job.steps[k].name], t', s.db.sequences[job.steps[k].name],
                        PageCandidates(job.steps[k], p), job.steps[k].defaults, job.steps[k].hidden,
                        job.steps[k].Entity?)
    requires NoDuplicates(t') && PageIds(job.steps[k], p, t', ids)
    requires s.db.sequences[job.steps[k].name] <= drawn <= next'
    ensures key in ids
    ensures var n := ids[key];
            var burnt := s.db.(sequences := s.db.sequences[job.steps[k].name := drawn]);
            var s' := Recording(s, MapKey(job.steps[k].name, id), n).(db := burnt);
            && Sound(job, s')
            && Lookup(s'.rows, job.steps[k].name, Some(id)) == Some(n)
            && (n !in s'.db.tables[job.steps[k].name] <==> key !in Keys(s.db.tables[job.steps[k].name]))
  {
    var step := job.steps[k];
    assert Importable(step, id, key);
    RecordingMessageKeeps(job, s, k, p, 0, id, key, ids[key]);
    BurnKeeps(job, Recording(s, MapKey(step.name, id), ids[key]), k, drawn);
    FoundBefore(s.db.tables[step.name], t', s.db.sequences[step.name], PageCandidates(step, p), step, key, ids[key]);
  }

  /** `m'` is `m` with further rows for messages of page `p`, each leading to what the page's lookup returned. */
  ghost predicate PageRecordings(s: Step, p: nat, ids: map<string, nat>, m: Mappings, m': Mappings)
    requires s.HasRows() && p < |s.pages|
  {
    && (forall mk :: mk in m ==> mk in m' && m'[mk] == m[mk])
    && (forall mk :: mk in m' && mk !in m ==> PageRecording(s, p, ids, mk, m'[mk]))
  }

  ghost predicate PageRecording(s: Step, p: nat, ids: map<string, nat>, mk: MapKey, n: nat)
    requires s.HasRows() && p < |s.pages|
  {
    mk.entity == s.name && exists key :: OnPage(s, p, mk.sourceId, key) && key in ids && ids[key] == n
  }

  /** The mapping rows of page `p` that are in `m'` but not in `m` lead to a row exactly for messages the table has. */
  ghost predicate DanglesIffNew(s: Step, p: nat, m: Mappings, m': Mappings, t: Table)
    requires s.HasRows() && p < |s.pages|
  {
    forall id, key :: OnPage(s, p, id, key) && MapKey(s.name, id) in m' && MapKey(s.name, id) !in m ==>
      (m'[MapKey(s.name, id)] in t <==> key in Keys(t))
  }

  lemma {:induction false} RolledBack(s: Step, p: nat, t: Table, t': Table, next: nat, ids: map<string, nat>,
                                      m: Mappings, m': Mappings)
    requires s.HasRows() && p < RowPages(s) && IdsConsistent(s) && PageRecordings(s, p, ids, m, m')
    requires PageEffect(t, t', next, PageCandidates(s, p), s.defaults, s.hidden, s.Entity?) && NoDuplicates(t')
    requires PageIds(s, p, t', ids)
    ensures DanglesIffNew(s, p, m, m', t) && DanglesIffNew(s, p, m, m', t')
  {
    forall id, key | OnPage(s, p, id, key) && MapKey(s.name, id) in m' && MapKey(s.name, id) !in m
      ensures m'[MapKey(s.name, id)] in t <==> key in Keys(t)
      ensures m'[MapKey(s.name, id)] in t' && key in Keys(t')
    {
      var n := m'[MapKey(s.name, id)];
      assert PageRecording(s, p, ids, MapKey(s.name, id), n);
      var key' :| OnPage(s, p, id, key') && key' in ids && ids[key'] == n;
      assert Importable(s, id, key) && Importable(s, id, key');
      FoundBefore(t, t', next, PageCandidates(s, p), s, key, n);
    }
  }

  // ---- links ----

  /** Where a parent of step `k` stands. */
  lemma {:induction false} ParentAt(job: Job, k: nat, name: string) returns (i: nat)
    requires job.Ok() && k < |job.steps| && EntityBefore(job.steps, k, name)
    ensures i < k && job.steps[i].Entity? && job.steps[i].name == name
    ensures StepNamed(job.steps, name) == job.steps[i]
  {
    i :| 0 <= i < k && job.steps[i].Entity? && job.steps[i].name == name;
    var s := StepNamed(job.steps, name);
    var j :| 0 <= j < |job.steps| && job.steps[j] == s;
    if j != i {
      TablesDiffer(job.steps, job.selected, i, j);
    }
  }

  /** Entity `name` is complete in the id map, and its table is clean. */
  ghost predicate Ready(job: Job, m: Mappings, db: Db, name: string) {
    && (exists i | 0 <= i < |job.steps| :: job.steps[i].HasRows() && job.steps[i].name == name)
    && name in db.tables && NoDuplicates(db.tables[name])
    && IdsConsistent(StepNamed(job.steps, name))
    && Resolves(m, StepNamed(job.steps, name), db.tables[name])
  }

  /** Parents before children: the entity parents of a running step are ready. */
  lemma {:induction false} ParentReady(job: Job, s: Snapshot, k: nat, i: nat, p: nat, name: string)
    requires AliveAt(job, s, k, i, p) && k < |job.steps| && EntityBefore(job.steps, k, name)
    requires Selected(job.selected, name)
    ensures Ready(job, s.cache, s.db, name)
  {
    var j := ParentAt(job, k, name);
    ParentResolved(job.steps, job.selected, s.cache, s.db, k, p, j);
    assert TableOk(s.db, job.steps[j], s.view) && IdsConsistent(job.steps[j]);
  }

  lemma {:induction false} StepNamedIs(job: Job, k: nat)
    requires job.Ok() && k < |job.steps| && job.steps[k].HasRows()
    ensures StepNamed(job.steps, job.steps[k].name) == job.steps[k]
  {
    var s := StepNamed(job.steps, job.steps[k].name);
    var j :| 0 <= j < |job.steps| && job.steps[j] == s;
    if j != k {
      TablesDiffer(job.steps, job.selected, k, j);
    }
  }

  lemma {:induction false} ParentsReady(job: Job, s: Snapshot, k: nat, i: nat, p: nat)
    requires AliveAt(job, s, k, i, p) && k < |job.steps| && job.steps[k].HasLinks()
    requires Selected(job.selected, job.steps[k].name)
    ensures Ready(job, s.cache, s.db, job.steps[k].LeftName())
    ensures job.steps[k].Links? ==> Ready(job, s.cache, s.db, job.steps[k].RightName())
  {
    assert ParentsBefore(job.steps, k) && ParentsSelected(job.steps[k], job.selected);
    ParentReady(job, s, k, i, p, job.steps[k].LeftName());
    if job.steps[k].Links? {
      ParentReady(job, s, k, i, p, job.steps[k].RightName());
    }
  }

  lemma {:induction false} MessagesReady(job: Job, s: Snapshot, k: nat, i: nat, p: nat)
    requires AliveAt(job, s, k, i, p) && k < |job.steps| && job.steps[k].Messages?
    requires job.steps[k].name in s.db.tables
    requires FreshUpTo(s.cache, job.steps[k], s.db.tables[job.steps[k].name], RowPages(job.steps[k]))
    ensures Ready(job, s.cache, s.db, job.steps[k].name)
  {
    StepNamedIs(job, k);
    assert TableOk(s.db, job.steps[k], s.view) && IdsConsistent(job.steps[k]);
    assert MappingOk(s.cache, job.steps[k], s.db);
    FreshResolves(s.cache, job.steps[k], s.db.tables[job.steps[k].name]);
  }

  lemma {:induction false} LinkCellsOnly(e: string, left: Step, right: Step, links: seq<SourceLink>)
    requires left.HasRows() && right.HasRows()
    ensures OnlyLinks(LinkCells(e, left, right, links), e)
  {
    if links != [] {
      LinkCellsOnly(e, left, right, links[..|links| - 1]);
    }
  }

  lemma {:induction false} MappingsAfterLinks(steps: seq<Step>, m: Mappings, db: Db, e: string, ls: seq<Link>)
    requires MappingsOk(steps, m, db)
    ensures MappingsOk(steps, m, db.(links := db.links[e := ls]))
  {
    forall j | 0 <= j < |steps| && steps[j].HasRows() ensures MappingOk(m, steps[j], db.(links := db.links[e := ls])) {
      assert MappingOk(m, steps[j], db);
    }
  }

  /** The account after a page of links has been stored. */
  lemma {:induction false} DbAfterLinks(job: Job, s: Snapshot, k: nat, ls': seq<Link>, pairs: seq<Link>, cells: View,
                                        refresh: bool)
    requires job.Ok() && k < |job.steps| && job.steps[k].HasLinks()
    requires Holds(job.steps, s.db, s.view) && LinksOk(s.db, job.steps[k], s.view)
    requires MappingsOk(job.steps, s.rows, s.db) && MappingsOk(job.steps, s.cache, s.db)
    requires NoDuplicates(s.db.tables[job.steps[k].LeftName()]) && NoDuplicates(s.db.tables[job.steps[k].RightName()])
    requires OnlyLinks(cells, job.steps[k].LinkTable())
    requires Mirrors(job.steps[k].LinkTable(), pairs, s.db.tables[job.steps[k].LeftName()],
                     s.db.tables[job.steps[k].RightName()], cells)
    requires StoreEffect(s.db.links[job.steps[k].LinkTable()], ls', pairs, refresh)
    ensures var db' := s.db.(links := s.db.links[job.steps[k].LinkTable() := ls']);
            && Holds(job.steps, db', Commit(LinkWrites(cells, refresh), s.view))
            && MappingsOk(job.steps, s.rows, db') && MappingsOk(job.steps, s.cache, db')
  {
    forall j | 0 <= j < |job.steps| && j != k && job.steps[j].HasLinks()
      ensures job.steps[j].LinkTable() != job.steps[k].LinkTable()
    {
      TablesDiffer(job.steps, job.selected, j, k);
    }
    HoldsAfterLinks(job.steps, s.db, s.view, k, ls', pairs, cells, refresh);
    MappingsAfterLinks(job.steps, s.rows, s.db, job.steps[k].LinkTable(), ls');
    MappingsAfterLinks(job.steps, s.cache, s.db, job.steps[k].LinkTable(), ls');
  }

  lemma {:induction false} LinkPageOp(job: Job, k: nat, q: nat, i: nat)
    requires job.Ok() && k < |job.steps| && job.steps[k].HasLinks() && q < LinkPart(job.steps[k])
    requires i >= RowPart(job.steps[k]) && q == i - RowPart(job.steps[k])
    ensures IsOp(job.steps, job.selected, k, i,
                 LinkWrites(PageCells(job.steps, job.selected, k, q), job.steps[k].Links? && job.steps[k].refresh))
  {
    LinkPageWrites(job.steps, job.selected, k, i, q);
  }

  lemma {:induction false} RowPageOp(job: Job, k: nat, p: nat)
    requires job.Ok() && k < |job.steps| && job.steps[k].HasRows() && p < RowPages(job.steps[k])
    ensures IsOp(job.steps, job.selected, k, p, StepWrites(job.steps[k], PageCandidates(job.steps[k], p)))
  {
  }

  /** `db'` is what page write `i` of step `k` may commit. */
  ghost predicate Committable(job: Job, s: Snapshot, k: nat, i: nat, db': Db, w: Writes)
    requires job.Ok() && k < |job.steps|
  {
    && i < StepSize(job.steps[k]) && IsOp(job.steps, job.selected, k, i, w)
    && Holds(job.steps, db', Commit(w, s.view))
    && MappingsOk(job.steps, s.rows, db') && MappingsOk(job.steps, s.cache, db')
  }

  /** Stored links stay where they are, and as they are unless the step refreshes them. */
  ghost predicate LinksAfter(db: Db, db': Db, e: string, refresh: bool) {
    && e in db.links && e in db'.links && |db.links[e]| <= |db'.links[e]|
    && forall i | 0 <= i < |db.links[e]| ::
         if refresh then db'.links[e][i].Ids() == db.links[e][i].Ids() else db'.links[e][i] == db.links[e][i]
  }

  lemma {:induction false} StoredLinks(db: Db, e: string, ls: seq<Link>, pairs: seq<Link>, refresh: bool)
    requires e in db.links && StoreEffect(db.links[e], ls, pairs, refresh)
    requires forall i | 0 <= i < |db.links[e]| :: PayloadOf(db.links[e][i], ls[i], pairs, refresh)
    ensures LinksAfter(db, db.(links := db.links[e := ls]), e, refresh)
  {
  }

  lemma {:induction false} LinkPageCommittable(job: Job, s: Snapshot, k: nat, q: nat, i: nat, e: string,
                                               ls: seq<Link>, pairs: seq<Link>, cells: View, refresh: bool)
    requires job.Ok() && k < |job.steps| && job.steps[k].HasLinks() && q < LinkPart(job.steps[k])
    requires i == RowPart(job.steps[k]) + q && e == job.steps[k].LinkTable()
    requires refresh == (job.steps[k].Links? && job.steps[k].refresh)
    requires Holds(job.steps, s.db, s.view) && LinksOk(s.db, job.steps[k], s.view)
    requires MappingsOk(job.steps, s.rows, s.db) && MappingsOk(job.steps, s.cache, s.db)
    requires NoDuplicates(s.db.tables[job.steps[k].LeftName()]) && NoDuplicates(s.db.tables[job.steps[k].RightName()])
    requires cells == PageCells(job.steps, job.selected, k, q) && OnlyLinks(cells, e)
    requires Mirrors(e, pairs, s.db.tables[job.steps[k].LeftName()], s.db.tables[job.steps[k].RightName()], cells)
    requires StoreEffect(s.db.links[e], ls, pairs, refresh)
    ensures Committable(job, s, k, i, s.db.(links := s.db.links[e := ls]), LinkWrites(cells, refresh))
  {
    DbAfterLinks(job, s, k, ls, pairs, cells, refresh);
    LinkPageOp(job, k, q, i);
  }

  // ---- restarts ----

  /** A new process finds the cache empty, loads the mapping rows and goes back to the checkpoint. */
  lemma {:induction false} Restarted(job: Job, s: Snapshot) returns (k: nat, p: nat)
    requires Sound(job, s)
    ensures s.checkpoint.None? ==> k == 0 && p == 0
    ensures s.checkpoint.Some? ==> ResumesAt(job.steps, job.selected, s.checkpoint.value, k, p)
    ensures k <= |job.steps|
    ensures AliveAt(job, s.(cache := s.rows, position := job.At(k, p)), k, p, p)
  {
    k, p := 0, 0;
    if s.checkpoint.Some? {
      k, p :| ResumesAt(job.steps, job.selected, s.checkpoint.value, k, p) && job.At(k, p) <= s.position
        && Recorded(job.steps, job.selected, s.rows, k, p);
    } else {
      NothingRecorded(job, s.rows);
    }
    RewoundReached(job, s.view, s.position, job.At(k, p));
    AgreesWithItself(job.steps, s.rows);
    RewoundCheckpoint(job, s, k, p);
  }

  /** A process starts at the first page or, with a checkpoint, at the page that was checkpointed last, which it reads
      once more; the messages step starts over. */
  ghost predicate ResumedAt(job: Job, c: Option<Checkpoint>, n: nat) {
    if c.None? then n == 0
    else
      exists k: nat | k < |job.steps| && job.steps[k].name == c.value.step ::
        n == job.At(k, 0) + if job.steps[k].Messages? then 0 else c.value.page - 1
  }

  lemma {:induction false} NothingRecorded(job: Job, m: Mappings)
    ensures Recorded(job.steps, job.selected, m, 0, 0)
  {
  }

  lemma {:induction false} RewoundReached(job: Job, v: View, n: nat, n': nat)
    requires job.Reached(v, n) && n' <= n
    ensures job.Reached(v, n')
  {
    forall plan | IsPlan(job.steps, job.selected, plan) ensures AtPosition(Concat(plan), job.start, v, n') {
    }
  }

  lemma {:induction false} AgreesWithItself(steps: seq<Step>, m: Mappings)
    ensures Agree(steps, m, m)
  {
  }

  lemma {:induction false} RewoundCheckpoint(job: Job, s: Snapshot, k: nat, p: nat)
    requires s.checkpoint.Some? ==> ResumesAt(job.steps, job.selected, s.checkpoint.value, k, p)
    requires s.checkpoint.Some? ==> Recorded(job.steps, job.selected, s.rows, k, p)
    requires k <= |job.steps|
    ensures CheckpointOk(job.steps, job.selected, s.checkpoint, s.rows, job.At(k, p))
  {
  }
}
