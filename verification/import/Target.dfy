/** The target account, the mapping rows and what ties them to the source. */
module ImportTarget {
  import opened Wrappers
  import opened Upserts
  import opened ImportSource
  import opened RowTables
  import opened LinkTables
  import opened IdMapping

  datatype Checkpoint = Checkpoint(step: string, page: nat)

  datatype Db = Db(tables: map<string, Table>, sequences: map<string, nat>, links: map<string, seq<Link>>)

  ghost predicate TableOk(db: Db, s: Step, v: View)
    requires s.HasRows()
  {
    && s.name in db.tables && s.name in db.sequences
    && NoDuplicates(db.tables[s.name])
    && (forall id :: id in db.tables[s.name] ==> id < db.sequences[s.name])
    && Keys(db.tables[s.name]) !! s.hidden
    && Shows(db.tables[s.name], s.name, v)
  }

  ghost predicate LinksOk(db: Db, s: Step, v: View)
    requires s.HasLinks()
  {
    && s.LinkTable() in db.links
    && s.LeftName() in db.tables && s.RightName() in db.tables
    && Mirrors(s.LinkTable(), db.links[s.LinkTable()], db.tables[s.LeftName()], db.tables[s.RightName()],
               LinksIn(v, s.LinkTable()))
  }

  /** The account shows `v`: every table has one row per natural key, every join table one row per pair of
      existing rows, and together they hold exactly the cells of `v`. */
  ghost predicate Holds(steps: seq<Step>, db: Db, v: View) {
    && (forall k {:trigger TableOk(db, steps[k], v)} | 0 <= k < |steps| && steps[k].HasRows() ::
          TableOk(db, steps[k], v))
    && (forall k {:trigger LinksOk(db, steps[k], v)} | 0 <= k < |steps| && steps[k].HasLinks() ::
          LinksOk(db, steps[k], v))
  }

  // ---- mapping rows ----

  /** Every mapping of an entity points to an existing row with the natural key of its source row. */
  ghost predicate SoundFor(m: Mappings, s: Step, t: Table)
    requires s.HasRows()
  {
    forall id :: MapKey(s.name, id) in m ==>
      m[MapKey(s.name, id)] in t && Importable(s, id, t[m[MapKey(s.name, id)]].key)
  }

  /** Mappings of messages may dangle: they are recorded before their transaction commits. */
  ghost predicate KnownFor(m: Mappings, s: Step)
    requires s.HasRows()
  {
    forall id :: MapKey(s.name, id) in m ==> exists key :: Importable(s, id, key)
  }

  ghost predicate MappingOk(m: Mappings, s: Step, db: Db)
    requires s.HasRows()
  {
    && (s.Entity? ==> s.name in db.tables && SoundFor(m, s, db.tables[s.name]))
    && (s.Messages? ==> KnownFor(m, s))
  }

  ghost predicate MappingsOk(steps: seq<Step>, m: Mappings, db: Db) {
    forall k {:trigger MappingOk(m, steps[k], db)} | 0 <= k < |steps| && steps[k].HasRows() ::
      MappingOk(m, steps[k], db)
  }

  /** For entities, the cache that takes the last value and the table that keeps the first never differ. */
  ghost predicate AgreeOn(s: Step, cache: Mappings, rows: Mappings) {
    forall id :: (MapKey(s.name, id) in cache <==> MapKey(s.name, id) in rows)
                 && (MapKey(s.name, id) in cache ==> cache[MapKey(s.name, id)] == rows[MapKey(s.name, id)])
  }

  ghost predicate Agree(steps: seq<Step>, cache: Mappings, rows: Mappings) {
    forall k {:trigger AgreeOn(steps[k], cache, rows)} | 0 <= k < |steps| && steps[k].Entity? ::
      AgreeOn(steps[k], cache, rows)
  }

  /** Every row the step imports in its first `n` pages has its mapping. */
  ghost predicate RecordedUpTo(m: Mappings, s: Step, n: nat)
    requires s.HasRows() && n <= RowPages(s)
  {
    forall id, key :: ImportedBy(s, n, id, key) ==> MapKey(s.name, id) in m
  }

  /** At page `p` of step `k`, all selected entities read so far are mapped. */
  ghost predicate Recorded(steps: seq<Step>, selected: Option<set<string>>, m: Mappings, k: nat, p: nat) {
    && (forall i {:trigger RecordedUpTo(m, steps[i], RowPages(steps[i]))} |
          0 <= i < |steps| && i < k && steps[i].Entity? && Selected(selected, steps[i].name) ::
          RecordedUpTo(m, steps[i], RowPages(steps[i])))
    && (k < |steps| && steps[k].Entity? ==> p <= RowPages(steps[k]) && RecordedUpTo(m, steps[k], p))
  }

  lemma {:induction false} RecordedGrows(steps: seq<Step>, selected: Option<set<string>>, m: Mappings, m': Mappings,
                                         k: nat, p: nat)
    requires Recorded(steps, selected, m, k, p)
    requires forall i | 0 <= i < |steps| && steps[i].Entity? ::
               forall id :: MapKey(steps[i].name, id) in m ==> MapKey(steps[i].name, id) in m'
    ensures Recorded(steps, selected, m', k, p)
  {
    forall i | 0 <= i < |steps| && i < k && steps[i].Entity? && Selected(selected, steps[i].name)
      ensures RecordedUpTo(m', steps[i], RowPages(steps[i]))
    {
      assert RecordedUpTo(m, steps[i], RowPages(steps[i]));
    }
  }

  function WithTable(db: Db, name: string, t: Table, next: nat): Db {
    db.(tables := db.tables[name := t], sequences := db.sequences[name := next])
  }

  function StepWrites(s: Step, d: map<string, SourceRow>): Writes
    requires s.HasRows()
  {
    RowWrites(s.name, d, s.defaults, s.hidden, s.Entity?)
  }

  /** What the cache maps, the table maps. */
  lemma {:induction false} RecordedInTable(steps: seq<Step>, selected: Option<set<string>>, cache: Mappings,
                                           rows: Mappings, k: nat, p: nat, back: nat)
    requires Recorded(steps, selected, cache, k, p) && Agree(steps, cache, rows) && k < |steps|
    requires steps[k].Entity? ==> back <= p
    ensures Recorded(steps, selected, rows, k, back)
  {
    forall j | 0 <= j < |steps| && j < k && steps[j].Entity? && Selected(selected, steps[j].name)
      ensures RecordedUpTo(rows, steps[j], RowPages(steps[j]))
    {
      assert AgreeOn(steps[j], cache, rows);
      assert RecordedUpTo(cache, steps[j], RowPages(steps[j]));
    }
    if steps[k].Entity? {
      assert AgreeOn(steps[k], cache, rows);
      forall id, key | ImportedBy(steps[k], back, id, key) ensures MapKey(steps[k].name, id) in rows {
        assert ImportedBy(steps[k], p, id, key);
      }
    }
  }

  // ---- steps of the pipeline, seen from the whole account ----

  lemma {:induction false} HoldsAfterRows(steps: seq<Step>, db: Db, v: View, k: nat, d: map<string, SourceRow>,
                                          t': Table, next': nat)
    requires Holds(steps, db, v) && k < |steps| && steps[k].HasRows() && TableOk(db, steps[k], v)
    requires forall j | 0 <= j < |steps| && j != k :: steps[j].name != steps[k].name
    requires PageEffect(db.tables[steps[k].name], t', db.sequences[steps[k].name], d, steps[k].defaults,
                        steps[k].hidden, steps[k].Entity?)
    requires NoDuplicates(t') && forall id :: id in t' ==> id < next'
    ensures Holds(steps, WithTable(db, steps[k].name, t', next'), Commit(StepWrites(steps[k], d), v))
  {
    var s, db', v' := steps[k], WithTable(db, steps[k].name, t', next'), Commit(StepWrites(steps[k], d), v);
    forall j | 0 <= j < |steps| && steps[j].HasRows() ensures TableOk(db', steps[j], v') {
      assert TableOk(db, steps[j], v);
      if j != k {
        OtherTablesShow(db.tables[steps[j].name], steps[j].name, StepWrites(s, d), v);
      } else {
        PageShows(db.tables[s.name], t', db.sequences[s.name], d, s.defaults, s.hidden, s.Entity?, s.name, v);
      }
    }
    forall j | 0 <= j < |steps| && steps[j].HasLinks() ensures LinksOk(db', steps[j], v') {
      assert LinksOk(db, steps[j], v);
      LinksAfterRows(db, steps[j], v, s.name, t', next', StepWrites(s, d));
    }
  }

  lemma {:induction false} LinksAfterRows(db: Db, s: Step, v: View, name: string, t': Table, next': nat, w: Writes)
    requires s.HasLinks() && LinksOk(db, s, v)
    requires name in db.tables && Grows(db.tables[name], t')
    requires forall c <- w :: c.EntityCell?
    ensures LinksOk(WithTable(db, name, t', next'), s, Commit(w, v))
  {
    var tables', e, l, r := db.tables[name := t'], s.LinkTable(), s.LeftName(), s.RightName();
    LinksInOther(v, e, w);
    MirrorsAfterRows(e, db.links[e], db.tables[l], db.tables[r], tables'[l], tables'[r], LinksIn(v, e));
  }

  lemma {:induction false} HoldsAfterLinks(steps: seq<Step>, db: Db, v: View, k: nat,
                                           ls': seq<Link>, pairs: seq<Link>, p: View, refresh: bool)
    requires Holds(steps, db, v) && k < |steps| && steps[k].HasLinks()
    requires forall j | 0 <= j < |steps| && j != k && steps[j].HasLinks() ::
               steps[j].LinkTable() != steps[k].LinkTable()
    requires LinksOk(db, steps[k], v)
    requires NoDuplicates(db.tables[steps[k].LeftName()]) && NoDuplicates(db.tables[steps[k].RightName()])
    requires OnlyLinks(p, steps[k].LinkTable())
    requires Mirrors(steps[k].LinkTable(), pairs, db.tables[steps[k].LeftName()], db.tables[steps[k].RightName()], p)
    requires StoreEffect(db.links[steps[k].LinkTable()], ls', pairs, refresh)
    ensures Holds(steps, db.(links := db.links[steps[k].LinkTable() := ls']),
                  Commit(LinkWrites(p, refresh), v))
  {
    var e := steps[k].LinkTable();
    var w := LinkWrites(p, refresh);
    var db', v' := db.(links := db.links[e := ls']), Commit(w, v);
    LinksAfterStore(db, steps[k], v, ls', pairs, p, refresh);
    RestAfterLinks(steps, db, v, k, ls', w);
  }

  /** Everything but step `k`'s own join table is as it was. */
  lemma {:induction false} RestAfterLinks(steps: seq<Step>, db: Db, v: View, k: nat, ls': seq<Link>, w: Writes)
    requires Holds(steps, db, v) && k < |steps| && steps[k].HasLinks()
    requires forall j | 0 <= j < |steps| && j != k && steps[j].HasLinks() ::
               steps[j].LinkTable() != steps[k].LinkTable()
    requires forall c <- w :: c.LinkCell? && c.entity == steps[k].LinkTable()
    ensures var db' := db.(links := db.links[steps[k].LinkTable() := ls']);
            LinksOk(db', steps[k], Commit(w, v)) ==> Holds(steps, db', Commit(w, v))
  {
    var e := steps[k].LinkTable();
    var db', v' := db.(links := db.links[e := ls']), Commit(w, v);
    forall j | 0 <= j < |steps| && steps[j].HasRows() ensures TableOk(db', steps[j], v') {
      assert TableOk(db, steps[j], v);
      RowsShowAfterLinks(db.tables[steps[j].name], steps[j].name, w, v);
    }
    forall j | 0 <= j < |steps| && steps[j].HasLinks() && j != k ensures LinksOk(db', steps[j], v') {
      assert LinksOk(db, steps[j], v);
      OtherLinksAfterLinks(db, steps[j], v, e, ls', w);
    }
  }

  lemma {:induction false} LinksAfterStore(db: Db, s: Step, v: View, ls': seq<Link>, pairs: seq<Link>, p: View,
                                           refresh: bool)
    requires s.HasLinks() && LinksOk(db, s, v)
    requires NoDuplicates(db.tables[s.LeftName()]) && NoDuplicates(db.tables[s.RightName()])
    requires OnlyLinks(p, s.LinkTable())
    requires Mirrors(s.LinkTable(), pairs, db.tables[s.LeftName()], db.tables[s.RightName()], p)
    requires StoreEffect(db.links[s.LinkTable()], ls', pairs, refresh)
    ensures LinksOk(db.(links := db.links[s.LinkTable() := ls']), s, Commit(LinkWrites(p, refresh), v))
  {
    var e := s.LinkTable();
    StoreMirrors(e, db.links[e], ls', pairs, refresh, db.tables[s.LeftName()], db.tables[s.RightName()],
                 LinksIn(v, e), p);
    LinksInCommit(v, e, p, refresh);
  }

  lemma {:induction false} OtherLinksAfterLinks(db: Db, s: Step, v: View, e: string, ls': seq<Link>, w: Writes)
    requires s.HasLinks() && LinksOk(db, s, v) && s.LinkTable() != e
    requires forall c <- w :: c.LinkCell? && c.entity == e
    ensures LinksOk(db.(links := db.links[e := ls']), s, Commit(w, v))
  {
    LinksInOther(v, s.LinkTable(), w);
  }

  lemma {:induction false} RowsShowAfterLinks(t: Table, e: string, w: Writes, v: View)
    requires Shows(t, e, v) && forall c <- w :: c.LinkCell?
    ensures Shows(t, e, Commit(w, v))
  {
    var v' := Commit(w, v);
    forall id | id in t
      ensures EntityCell(e, t[id].key) in v' && v'[EntityCell(e, t[id].key)] == t[id].cols
    {
      assert EntityCell(e, t[id].key) !in w;
    }
    forall q | EntityCell(e, q) in v' ensures q in Keys(t) {
      assert EntityCell(e, q) !in w;
    }
  }

  /** Parents before children: when step `k` starts, the cache maps exactly the importable rows of every entity
      that came before it, each to its row. */
  lemma {:induction false} ParentResolved(steps: seq<Step>, selected: Option<set<string>>, m: Mappings, db: Db,
                                          k: nat, p: nat, i: nat)
    requires MappingsOk(steps, m, db) && Recorded(steps, selected, m, k, p)
    requires i < k <= |steps| && steps[i].Entity? && Selected(selected, steps[i].name)
    ensures steps[i].name in db.tables && Resolves(m, steps[i], db.tables[steps[i].name])
  {
    assert MappingOk(m, steps[i], db);
    assert RecordedUpTo(m, steps[i], RowPages(steps[i]));
  }

  /** Two accounts that show the same view hold the same rows, whatever their ids. */
  lemma {:induction false} SameRowsUpToIds(t: Table, t': Table, e: string, v: View)
    requires Shows(t, e, v) && Shows(t', e, v)
    ensures forall id :: id in t ==> exists id' :: id' in t' && t'[id'] == t[id]
  {
    forall id | id in t ensures exists id' :: id' in t' && t'[id'] == t[id] {
      assert EntityCell(e, t[id].key) in v;
      var id' :| id' in t' && t'[id'].key == t[id].key;
      assert t'[id'].cols == v[EntityCell(e, t[id].key)];
    }
  }

  /** Rows keep id and key, so mappings stay sound. */
  lemma {:induction false} MappingsAfterRows(steps: seq<Step>, m: Mappings, db: Db, name: string, t': Table, next': nat)
    requires MappingsOk(steps, m, db) && name in db.tables && Grows(db.tables[name], t')
    ensures MappingsOk(steps, m, WithTable(db, name, t', next'))
  {
    var db' := WithTable(db, name, t', next');
    forall j | 0 <= j < |steps| && steps[j].HasRows() ensures MappingOk(m, steps[j], db') {
      assert MappingOk(m, steps[j], db);
    }
  }

  /** Recording an importable row keeps mappings sound and cache and table in agreement: a value already in the
      table can only be the same one. */
  lemma {:induction false} RecordKeeps(steps: seq<Step>, selected: Option<set<string>>, cache: Mappings,
                                       rows: Mappings, db: Db, k: nat, id: nat, n: nat)
    requires WellFormed(steps, selected) && k < |steps| && steps[k].Entity?
    requires MappingsOk(steps, cache, db) && MappingsOk(steps, rows, db) && Agree(steps, cache, rows)
    requires steps[k].name in db.tables && NoDuplicates(db.tables[steps[k].name])
    requires n in db.tables[steps[k].name] && Importable(steps[k], id, db.tables[steps[k].name][n].key)
    ensures var key := MapKey(steps[k].name, id);
            var cache', rows' := cache[key := n], if key in rows then rows else rows[key := n];
            MappingsOk(steps, cache', db) && MappingsOk(steps, rows', db) && Agree(steps, cache', rows')
  {
    var s, key := steps[k], MapKey(steps[k].name, id);
    var cache', rows' := cache[key := n], if key in rows then rows else rows[key := n];
    var t := db.tables[s.name];
    assert MappingOk(cache, s, db) && MappingOk(rows, s, db) && AgreeOn(s, cache, rows) && IdsConsistent(s);
    if key in rows {
      assert Importable(s, id, t[rows[key]].key);
      assert SameKey(t, rows[key], n);
    }
    forall j | 0 <= j < |steps| && steps[j].HasRows()
      ensures MappingOk(cache', steps[j], db) && MappingOk(rows', steps[j], db)
    {
      assert MappingOk(cache, steps[j], db) && MappingOk(rows, steps[j], db);
      if j != k {
        TablesDiffer(steps, selected, j, k);
      }
    }
    forall j | 0 <= j < |steps| && steps[j].Entity? ensures AgreeOn(steps[j], cache', rows') {
      assert AgreeOn(steps[j], cache, rows);
    }
  }

  // ---- checkpoints ----

  /** A checkpoint of step `k` makes a restart go back to page `p` of that step. */
  ghost predicate ResumesAt(steps: seq<Step>, selected: Option<set<string>>, c: Checkpoint, k: nat, p: nat) {
    && k < |steps| && c.step == steps[k].name && Selected(selected, steps[k].name)
    && 1 <= c.page <= (if steps[k].HasRows() then RowPages(steps[k]) else LinkPageCount(steps[k]))
    && p == (if steps[k].Messages? then 0 else c.page - 1)
  }

  /** The page a restart goes back to lies behind the worker, and what precedes it is mapped for good. */
  ghost predicate CheckpointOk(steps: seq<Step>, selected: Option<set<string>>, c: Option<Checkpoint>, rows: Mappings,
                               position: nat)
  {
    c.Some? ==>
      exists k: nat, p: nat {:trigger ResumesAt(steps, selected, c.value, k, p)} ::
        ResumesAt(steps, selected, c.value, k, p) && Offset(steps, selected, k) + p <= position
        && Recorded(steps, selected, rows, k, p)
  }

  lemma {:induction false} CheckpointStays(steps: seq<Step>, selected: Option<set<string>>, c: Option<Checkpoint>,
                                           rows: Mappings, position: nat, rows': Mappings, position': nat)
    requires WellFormed(steps, selected) && CheckpointOk(steps, selected, c, rows, position)
    requires position <= position' && rows.Keys <= rows'.Keys
    ensures CheckpointOk(steps, selected, c, rows', position')
  {
    if c.Some? {
      var k: nat, p: nat :| ResumesAt(steps, selected, c.value, k, p) && Offset(steps, selected, k) + p <= position
        && Recorded(steps, selected, rows, k, p);
      RecordedGrows(steps, selected, rows, rows', k, p);
    }
  }

  // ---- the whole job ----

  datatype Job = Job(steps: seq<Step>, selected: Option<set<string>>, start: View) {
    ghost predicate Ok() {
      WellFormed(steps, selected)
    }

    ghost function At(k: nat, i: nat): nat
      requires k <= |steps|
    {
      Offset(steps, selected, k) + i
    }

    /** `p` page writes of the run lie behind, see `AtPosition`. */
    ghost predicate Reached(v: View, p: nat) {
      && p <= Offset(steps, selected, |steps|)
      && forall plan {:trigger IsPlan(steps, selected, plan)} | IsPlan(steps, selected, plan) ::
           AtPosition(Concat(plan), start, v, p)
    }

    /** What one uninterrupted run over the same source leaves. */
    ghost function Expected(): View
      requires Ok()
    {
      CommitAll(Concat(Plan(steps, selected)), start)
    }

    /** Committing page `i` of step `k` advances the whole run by one page. */
    lemma {:induction false} Advance(v: View, k: nat, i: nat, w: Writes)
      requires Ok() && k < |steps| && Selected(selected, steps[k].name) && i < StepSize(steps[k])
      requires Reached(v, At(k, i)) && IsOp(steps, selected, k, i, w)
      ensures Reached(Commit(w, v), At(k, i) + 1)
    {
      WithinRun(k, i);
      forall plan | IsPlan(steps, selected, plan) ensures AtPosition(Concat(plan), start, Commit(w, v), At(k, i) + 1) {
        PlanAt(steps, selected, plan, k, i);
        SameOp(steps, selected, k, i, w, plan[k][i]);
        OpAt(steps, selected, plan, k, i);
        RunConsistent(steps, selected, plan);
        AdvanceBy(Concat(plan), start, v, At(k, i), w);
      }
    }

    lemma {:induction false} WithinRun(k: nat, i: nat)
      requires k < |steps| && Selected(selected, steps[k].name) && i < StepSize(steps[k])
      ensures At(k, i) + 1 <= Offset(steps, selected, |steps|)
    {
      OffsetMonotone(steps, selected, k + 1, |steps|);
    }

    lemma {:induction false} AtStart()
      ensures Reached(start, 0)
    {
      forall plan | IsPlan(steps, selected, plan) ensures AtPosition(Concat(plan), start, start, 0) {
        StartPosition(Concat(plan), start);
      }
    }

    lemma {:induction false} Finished(v: View)
      requires Ok() && Reached(v, At(|steps|, 0))
      ensures v == Expected()
    {
      var plan := Plan(steps, selected);
      PlanIsPlan(steps, selected);
      RunSize(steps, selected, plan, |steps|);
      assert plan[..|steps|] == plan;
      FinalPosition(Concat(plan), start, v);
    }
  }

  /** Durable state and cache, with the view the account shows and the number of page writes that lie behind. */
  datatype Snapshot = Snapshot(db: Db, rows: Mappings, cache: Mappings, checkpoint: Option<Checkpoint>, view: View,
                               position: nat)

  /** Holds at every moment a crash can strike; does not mention the cache. */
  ghost predicate Sound(job: Job, s: Snapshot) {
    && job.Ok()
    && Holds(job.steps, s.db, s.view)
    && MappingsOk(job.steps, s.rows, s.db)
    && job.Reached(s.view, s.position)
    && CheckpointOk(job.steps, job.selected, s.checkpoint, s.rows, s.position)
  }

  /** Holds while the process is alive, `i` page writes into step `k`, with `p` of its row pages mapped. */
  ghost predicate AliveAt(job: Job, s: Snapshot, k: nat, i: nat, p: nat) {
    && Sound(job, s) && k <= |job.steps|
    && s.position == job.At(k, i)
    && MappingsOk(job.steps, s.cache, s.db)
    && Agree(job.steps, s.cache, s.rows)
    && Recorded(job.steps, job.selected, s.cache, k, p)
  }

  lemma {:induction false} DbAfterRows(job: Job, s: Snapshot, k: nat, d: map<string, SourceRow>, t': Table, next': nat)
    requires job.Ok() && k < |job.steps| && job.steps[k].HasRows()
    requires Holds(job.steps, s.db, s.view) && TableOk(s.db, job.steps[k], s.view)
    requires MappingsOk(job.steps, s.rows, s.db) && MappingsOk(job.steps, s.cache, s.db)
    requires PageEffect(s.db.tables[job.steps[k].name], t', s.db.sequences[job.steps[k].name], d,
                        job.steps[k].defaults, job.steps[k].hidden, job.steps[k].Entity?)
    requires NoDuplicates(t') && forall id :: id in t' ==> id < next'
    ensures var db' := WithTable(s.db, job.steps[k].name, t', next');
            && Holds(job.steps, db', Commit(StepWrites(job.steps[k], d), s.view))
            && MappingsOk(job.steps, s.rows, db') && MappingsOk(job.steps, s.cache, db')
  {
    forall j | 0 <= j < |job.steps| && j != k ensures job.steps[j].name != job.steps[k].name {
      TablesDiffer(job.steps, job.selected, j, k);
    }
    HoldsAfterRows(job.steps, s.db, s.view, k, d, t', next');
    PageGrows(s.db.tables[job.steps[k].name], t', s.db.sequences[job.steps[k].name], d, job.steps[k]);
    MappingsAfterRows(job.steps, s.rows, s.db, job.steps[k].name, t', next');
    MappingsAfterRows(job.steps, s.cache, s.db, job.steps[k].name, t', next');
  }

  lemma {:induction false} PageGrows(t: Table, t': Table, next: nat, d: map<string, SourceRow>, s: Step)
    requires s.HasRows() && PageEffect(t, t', next, d, s.defaults, s.hidden, s.Entity?)
    ensures Grows(t, t')
  {
  }

  /** The transaction of one page moves the run one page on. */
  lemma {:induction false} CommitKeeps(job: Job, s: Snapshot, s': Snapshot, k: nat, p: nat, q: nat, w: Writes)
    requires AliveAt(job, s, k, p, q) && k < |job.steps| && p < StepSize(job.steps[k])
    requires Selected(job.selected, job.steps[k].name) && IsOp(job.steps, job.selected, k, p, w)
    requires s' == s.(db := s'.db, view := Commit(w, s.view), position := s.position + 1)
    requires Holds(job.steps, s'.db, Commit(w, s.view))
    requires MappingsOk(job.steps, s.rows, s'.db) && MappingsOk(job.steps, s.cache, s'.db)
    ensures AliveAt(job, s', k, p + 1, q)
  {
    job.Advance(s.view, k, p, w);
    CheckpointStays(job.steps, job.selected, s.checkpoint, s.rows, s.position, s.rows, s.position + 1);
  }

  lemma {:induction false} BurnKeeps(job: Job, s: Snapshot, k: nat, next': nat)
    requires Sound(job, s) && k < |job.steps| && job.steps[k].HasRows()
    requires job.steps[k].name in s.db.sequences && s.db.sequences[job.steps[k].name] <= next'
    ensures Sound(job, s.(db := s.db.(sequences := s.db.sequences[job.steps[k].name := next'])))
  {
    var steps := job.steps;
    var db' := s.db.(sequences := s.db.sequences[steps[k].name := next']);
    forall j | 0 <= j < |steps| && steps[j].HasRows()
      ensures TableOk(db', steps[j], s.view) && MappingOk(s.rows, steps[j], db')
    {
      assert TableOk(s.db, steps[j], s.view);
      assert MappingOk(s.rows, steps[j], s.db);
    }
    forall j | 0 <= j < |steps| && steps[j].HasLinks() ensures LinksOk(db', steps[j], s.view) {
      assert LinksOk(s.db, steps[j], s.view);
    }
  }

  function Recording(s: Snapshot, key: MapKey, n: nat): Snapshot {
    s.(cache := s.cache[key := n], rows := if key in s.rows then s.rows else s.rows[key := n])
  }

  lemma {:induction false} RecordingKeeps(job: Job, s: Snapshot, k: nat, i: nat, p: nat, id: nat, n: nat)
    requires AliveAt(job, s, k, i, p) && k < |job.steps| && job.steps[k].Entity?
    requires job.steps[k].name in s.db.tables && NoDuplicates(s.db.tables[job.steps[k].name])
    requires n in s.db.tables[job.steps[k].name]
    requires Importable(job.steps[k], id, s.db.tables[job.steps[k].name][n].key)
    ensures AliveAt(job, Recording(s, MapKey(job.steps[k].name, id), n), k, i, p)
  {
    var s' := Recording(s, MapKey(job.steps[k].name, id), n);
    RecordKeeps(job.steps, job.selected, s.cache, s.rows, s.db, k, id, n);
    RecordedGrows(job.steps, job.selected, s.cache, s'.cache, k, p);
    CheckpointStays(job.steps, job.selected, s.checkpoint, s.rows, s.position, s'.rows, s.position);
  }

  /** The checkpoint moves to the page just finished. */
  lemma {:induction false} CheckpointKeeps(job: Job, s: Snapshot, k: nat, i: nat, p: nat, c: Checkpoint, back: nat)
    requires AliveAt(job, s, k, i, p) && k < |job.steps|
    requires ResumesAt(job.steps, job.selected, c, k, back) && back <= i
    requires job.steps[k].Entity? ==> back <= p
    ensures AliveAt(job, s.(checkpoint := Some(c)), k, i, p)
  {
    RecordedInTable(job.steps, job.selected, s.cache, s.rows, k, p, back);
    assert CheckpointOk(job.steps, job.selected, Some(c), s.rows, s.position);
  }

  lemma {:induction false} RecordedNext(steps: seq<Step>, selected: Option<set<string>>, m: Mappings, k: nat, p: nat)
    requires k < |steps| && Recorded(steps, selected, m, k, p)
    requires steps[k].Entity? && Selected(selected, steps[k].name) ==> p == RowPages(steps[k])
    ensures Recorded(steps, selected, m, k + 1, 0)
  {
    if k + 1 < |steps| && steps[k + 1].Entity? {
      assert RecordedUpTo(m, steps[k + 1], 0);
    }
  }

  /** A finished step hands over to the next one. */
  lemma {:induction false} StepDone(job: Job, s: Snapshot, k: nat, p: nat)
    requires k < |job.steps| && Selected(job.selected, job.steps[k].name)
    requires AliveAt(job, s, k, StepSize(job.steps[k]), p)
    requires job.steps[k].Entity? ==> p == RowPages(job.steps[k])
    ensures AliveAt(job, s, k + 1, 0, 0)
  {
    RecordedNext(job.steps, job.selected, s.cache, k, p);
  }

  /** A step that is not selected writes nothing. */
  lemma {:induction false} StepSkipped(job: Job, s: Snapshot, k: nat)
    requires k < |job.steps| && !Selected(job.selected, job.steps[k].name)
    requires AliveAt(job, s, k, 0, 0)
    ensures AliveAt(job, s, k + 1, 0, 0)
  {
    RecordedNext(job.steps, job.selected, s.cache, k, 0);
  }
}
