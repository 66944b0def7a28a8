/** The import worker. It may die between any two durable writes and is then started again; an operation that
    returns `alive == false` has been cut short by the end of its process. */
module ImportWorker {
  import opened Wrappers
  import opened Upserts
  import opened ImportSource
  import opened RowTables
  import opened LinkTables
  import opened IdMapping
  import opened ImportTarget
  import opened ImportProgress

  /** When processes die: at the moments of a clock that every durable write may be the last one before. */
  class Fate {
    const deaths: set<nat>
    var clock: nat

    constructor (deaths: set<nat>)
      ensures this.deaths == deaths && clock == 0
    {
      this.deaths, clock := deaths, 0;
    }

    method Survives() returns (alive: bool)
      modifies this`clock
      ensures clock == old(clock) + 1 && alive == (old(clock) !in deaths)
    {
      alive := clock !in deaths;
      clock := clock + 1;
    }

    /** Whoever is not alive died at the last moment, no earlier than `start`. */
    ghost predicate Since(start: nat, alive: bool)
      reads this
    {
      start <= clock && (!alive ==> start < clock && clock - 1 in deaths)
    }

    /** The deaths that are still to come. */
    ghost function Ahead(): set<nat>
      reads this
    {
      set d | d in deaths && d >= clock
    }
  }

  class ImportJob {
    const job: Job
    const fate: Fate
    const mapper: IdMapper

    var db: Db
    var checkpoint: Option<Checkpoint>
    var completed: bool

    ghost var view: View
    ghost var position: nat
    /** Where the latest process took up the work. */
    ghost var resumed: nat

    ghost function Now(): Snapshot
      reads this, mapper
    {
      Snapshot(db, mapper.rows, mapper.cache, checkpoint, view, position)
    }

    /** Holds at every moment, whatever dies. */
    ghost predicate Valid()
      reads this, mapper
    {
      Sound(job, Now()) && (completed ==> position == job.At(|job.steps|, 0))
    }

    constructor (job: Job, mapper: IdMapper, db: Db, fate: Fate)
      requires job.Ok() && Holds(job.steps, db, job.start)
      requires mapper.rows == map[]
      ensures Valid() && !completed
      ensures this.job == job && this.mapper == mapper && this.db == db && this.fate == fate
    {
      this.job, this.mapper, this.db, this.fate := job, mapper, db, fate;
      this.checkpoint, this.completed := None, false;
      this.view, this.position := job.start, 0;
      new;
      job.AtStart();
      NoMappings(job, db);
    }

    // ---- durable writes ----

    /** A transaction commits; it is page `i` of step `k`. */
    method CommitPage(k: nat, i: nat, q: nat, db': Db, ghost w: Writes)
      requires AliveAt(job, Now(), k, i, q) && k < |job.steps| && Selected(job.selected, job.steps[k].name)
      requires Committable(job, Now(), k, i, db', w)
      modifies this`db, this`view, this`position
      ensures db == db' && view == Commit(w, old(view)) && position == old(position) + 1
      ensures AliveAt(job, Now(), k, i + 1, q)
    {
      ghost var before := Now();
      db, view, position := db', Commit(w, view), position + 1;
      CommitKeeps(job, before, Now(), k, i, q, w);
    }

    /** A transaction rolls back, but the ids its inserts have drawn so far, up to `next'`, are gone. */
    method RollBack(k: nat, next': nat)
      requires Sound(job, Now()) && k < |job.steps| && job.steps[k].HasRows()
      requires job.steps[k].name in db.sequences && db.sequences[job.steps[k].name] <= next'
      modifies this`db
      ensures db.tables == old(db.tables) && db.links == old(db.links)
      ensures Sound(job, Now())
    {
      var drawn :| db.sequences[job.steps[k].name] <= drawn <= next';
      BurnKeeps(job, Now(), k, drawn);
      db := db.(sequences := db.sequences[job.steps[k].name := drawn]);
    }

    method SetCheckpoint(k: nat, i: nat, p: nat, page: nat, ghost back: nat)
      requires AliveAt(job, Now(), k, i, p) && k < |job.steps|
      requires ResumesAt(job.steps, job.selected, Checkpoint(job.steps[k].name, page), k, back) && back <= i
      requires job.steps[k].Entity? ==> back <= p
      modifies this`checkpoint
      ensures checkpoint == Some(Checkpoint(job.steps[k].name, page))
      ensures AliveAt(job, Now(), k, i, p)
    {
      var c := Checkpoint(job.steps[k].name, page);
      CheckpointKeeps(job, Now(), k, i, p, c, back);
      checkpoint := Some(c);
    }

    /** The checkpoint is written; the process may die right behind it. */
    method WriteCheckpoint(k: nat, i: nat, p: nat, page: nat, ghost back: nat) returns (alive: bool)
      requires AliveAt(job, Now(), k, i, p) && k < |job.steps|
      requires ResumesAt(job.steps, job.selected, Checkpoint(job.steps[k].name, page), k, back) && back <= i
      requires job.steps[k].Entity? ==> back <= p
      modifies this`checkpoint, fate
      ensures fate.Since(old(fate.clock), alive)
      ensures checkpoint == Some(Checkpoint(job.steps[k].name, page))
      ensures AliveAt(job, Now(), k, i, p)
    {
      SetCheckpoint(k, i, p, page, back);
      alive := fate.Survives();
    }

    method RecordEntity(k: nat, i: nat, p: nat, id: nat, n: nat)
      requires AliveAt(job, Now(), k, i, p) && k < |job.steps| && job.steps[k].Entity?
      requires job.steps[k].name in db.tables && NoDuplicates(db.tables[job.steps[k].name])
      requires n in db.tables[job.steps[k].name]
      requires Importable(job.steps[k], id, db.tables[job.steps[k].name][n].key)
      modifies mapper
      ensures mapper.cache == old(mapper.cache)[MapKey(job.steps[k].name, id) := n]
      ensures AliveAt(job, Now(), k, i, p)
    {
      ghost var before := Now();
      RecordingKeeps(job, before, k, i, p, id, n);
      mapper.Record(job.steps[k].name, id, n);
      assert Now() == Recording(before, MapKey(job.steps[k].name, id), n);
    }

    // ---- entity steps ----

    /** After the commit, source ids are mapped one by one. */
    method RecordPage(k: nat, p: nat, cands: seq<SourceRow>, ids: map<string, nat>) returns (alive: bool)
      requires k < |job.steps| && job.steps[k].Entity? && p < RowPages(job.steps[k])
      requires AliveAt(job, Now(), k, p + 1, p)
      requires Lists(cands, PageCandidates(job.steps[k], p))
      requires TableOk(db, job.steps[k], view)
      requires PageIds(job.steps[k], p, db.tables[job.steps[k].name], ids)
      modifies mapper, fate
      ensures fate.Since(old(fate.clock), alive)
      ensures Sound(job, Now())
      ensures alive ==> AliveAt(job, Now(), k, p + 1, p + 1)
    {
      var s := job.steps[k];
      for i := 0 to |cands|
        invariant old(fate.clock) <= fate.clock
        invariant AliveAt(job, Now(), k, p + 1, p)
        invariant forall j | 0 <= j < i :: Mapped(mapper.cache, s, cands[j])
      {
        var c := cands[i];
        PageIdsAt(s, p, db.tables[s.name], ids, c);
        if c.key in ids && c.id.Some? {
          RecordEntity(k, p + 1, p, c.id.value, ids[c.key]);
        }
        alive := fate.Survives();
        if !alive { return; }
      }
      EntityPageDone(job, Now(), k, p, cands);
      alive := true;
    }

    /** Page `p` of entity step `k`, rows, mappings and checkpoint. */
    method ImportEntityPage(k: nat, p: nat) returns (alive: bool)
      requires k < |job.steps| && job.steps[k].Entity? && Selected(job.selected, job.steps[k].name)
      requires p < RowPages(job.steps[k]) && AliveAt(job, Now(), k, p, p)
      modifies this`db, this`checkpoint, this`view, this`position, mapper, fate
      ensures fate.Since(old(fate.clock), alive)
      ensures Sound(job, Now())
      ensures alive ==> AliveAt(job, Now(), k, p + 1, p + 1)
      ensures alive ==> checkpoint == if PageCandidates(job.steps[k], p) == map[] then old(checkpoint)
                                      else Some(Checkpoint(job.steps[k].name, p + 1))
    {
      var cands := CollectCandidates(job.steps[k].pages[p], false);
      if cands == [] {
        SkipPage(k, p);
        return true;
      }
      alive := ImportCandidates(k, p, cands);
    }

    method ImportCandidates(k: nat, p: nat, cands: seq<SourceRow>) returns (alive: bool)
      requires k < |job.steps| && job.steps[k].Entity? && Selected(job.selected, job.steps[k].name)
      requires p < RowPages(job.steps[k]) && AliveAt(job, Now(), k, p, p)
      requires Lists(cands, PageCandidates(job.steps[k], p))
      modifies this`db, this`checkpoint, this`view, this`position, mapper, fate
      ensures fate.Since(old(fate.clock), alive)
      ensures Sound(job, Now())
      ensures alive ==> AliveAt(job, Now(), k, p + 1, p + 1)
      ensures alive ==> checkpoint == Some(Checkpoint(job.steps[k].name, p + 1))
    {
      var ids: map<string, nat>;
      alive, ids := UpsertPage(k, p, p, cands);
      if !alive { return; }
      alive := RecordPage(k, p, cands, ids);
      if !alive { return; }
      EntityCheckpoint(job, k, p, p + 1);
      alive := WriteCheckpoint(k, p + 1, p + 1, p + 1, p);
    }

    /** A page without candidates opens no transaction and sets no checkpoint. */
    ghost method SkipPage(k: nat, p: nat)
      requires k < |job.steps| && job.steps[k].Entity? && Selected(job.selected, job.steps[k].name)
      requires p < RowPages(job.steps[k]) && AliveAt(job, Now(), k, p, p)
      requires Lists([], PageCandidates(job.steps[k], p))
      modifies this`view, this`position
      ensures view == old(view)
      ensures AliveAt(job, Now(), k, p + 1, p + 1)
    {
      var w := StepWrites(job.steps[k], PageCandidates(job.steps[k], p));
      RowPageOp(job, k, p);
      NothingToDo(w, view);
      var before := Now();
      position := position + 1;
      CommitKeeps(job, before, Now(), k, p, p, w);
      EntityPageDone(job, Now(), k, p, []);
    }

    /** The page transaction of a step with rows; it may roll back. */
    method UpsertPage(k: nat, p: nat, q: nat, cands: seq<SourceRow>) returns (alive: bool, ids: map<string, nat>)
      requires k < |job.steps| && job.steps[k].Entity? && Selected(job.selected, job.steps[k].name)
      requires p < RowPages(job.steps[k]) && AliveAt(job, Now(), k, p, q)
      requires Lists(cands, PageCandidates(job.steps[k], p))
      modifies this`db, this`view, this`position, fate
      ensures fate.Since(old(fate.clock), alive)
      ensures Sound(job, Now())
      ensures alive ==> AliveAt(job, Now(), k, p + 1, q) && TableOk(db, job.steps[k], view)
                        && PageIds(job.steps[k], p, db.tables[job.steps[k].name], ids)
    {
      var s := job.steps[k];
      ghost var d := PageCandidates(s, p);
      assert TableOk(db, s, view);
      var t', next';
      t', next', ids := ImportPage(db.tables[s.name], db.sequences[s.name], cands, s.defaults, s.hidden, s.Entity?, d);
      alive := fate.Survives();
      if !alive {
        RollBack(k, next');
        return;
      }
      PageIdsFound(s, p, db.tables[s.name], t', db.sequences[s.name], ids);
      CommitRows(k, p, q, t', next');
      assert TableOk(db, s, view);
      alive := fate.Survives();
    }

    /** Where a step begins: at the checkpointed page if the checkpoint read at the start of the process names it. */
    method ResumePage(ctx: Option<Checkpoint>, name: string) returns (p: nat)
      requires ctx.Some? && ctx.value.step == name ==> ctx.value.page >= 1
      ensures p == if ctx.Some? && ctx.value.step == name then ctx.value.page - 1 else 0
    {
      p := if ctx.Some? && ctx.value.step == name then ctx.value.page - 1 else 0;
    }

    method RunEntity(k: nat, first: nat) returns (alive: bool)
      requires k < |job.steps| && job.steps[k].Entity? && Selected(job.selected, job.steps[k].name)
      requires first == 0 || first < RowPages(job.steps[k])
      requires AliveAt(job, Now(), k, first, first)
      modifies this`db, this`checkpoint, this`view, this`position, mapper, fate
      ensures fate.Since(old(fate.clock), alive)
      ensures Sound(job, Now())
      ensures alive ==> AliveAt(job, Now(), k + 1, 0, 0)
    {
      alive := ReadEntityPages(k, first);
      if !alive { return; }
      StepDone(job, Now(), k, RowPages(job.steps[k]));
    }

    method ReadEntityPages(k: nat, first: nat) returns (alive: bool)
      requires k < |job.steps| && job.steps[k].Entity? && Selected(job.selected, job.steps[k].name)
      requires first == 0 || first < RowPages(job.steps[k])
      requires AliveAt(job, Now(), k, first, first)
      modifies this`db, this`checkpoint, this`view, this`position, mapper, fate
      ensures fate.Since(old(fate.clock), alive)
      ensures Sound(job, Now())
      ensures alive ==> AliveAt(job, Now(), k, RowPages(job.steps[k]), RowPages(job.steps[k]))
    {
      var s := job.steps[k];
      var p := first;
      if RowPages(s) == 0 { FirstRowPage(s); }
      while p < |s.pages| && s.pages[p] != []
        invariant old(fate.clock) <= fate.clock
        invariant p < RowPages(s) || (p == RowPages(s) && RowsEnd(s, p))
        invariant AliveAt(job, Now(), k, p, p)
        decreases |s.pages| - p
      {
        var more;
        alive, more := ReadEntityPage(k, p);
        if !alive { return; }
        p := p + 1;
        if !more { break; }
      }
      if p < RowPages(s) { RowPageRead(s, p); }
      alive := true;
    }

    /** A page, and whether to read on: a short one is the last. */
    method ReadEntityPage(k: nat, p: nat) returns (alive: bool, more: bool)
      requires k < |job.steps| && job.steps[k].Entity? && Selected(job.selected, job.steps[k].name)
      requires p < RowPages(job.steps[k]) && AliveAt(job, Now(), k, p, p)
      modifies this`db, this`checkpoint, this`view, this`position, mapper, fate
      ensures fate.Since(old(fate.clock), alive)
      ensures Sound(job, Now())
      ensures alive ==> AliveAt(job, Now(), k, p + 1, p + 1)
      ensures p < |job.steps[k].pages| && more == (|job.steps[k].pages[p]| >= job.steps[k].batch)
      ensures more ==> p + 1 < RowPages(job.steps[k]) || RowsEnd(job.steps[k], p + 1)
      ensures !more ==> p + 1 == RowPages(job.steps[k])
    {
      RowPageRead(job.steps[k], p);
      alive := ImportEntityPage(k, p);
      more := |job.steps[k].pages[p]| >= job.steps[k].batch;
    }

    // ---- links ----

    /** The transaction of link page `q` of step `k`; the worker may die before it commits or right after. */
    method StoreLinkPage(k: nat, q: nat, i: nat, n: nat) returns (alive: bool)
      requires k < |job.steps| && job.steps[k].HasLinks() && Selected(job.selected, job.steps[k].name)
      requires q < LinkPart(job.steps[k]) && q < |job.steps[k].linkPages|
      requires i == RowPart(job.steps[k]) + q && AliveAt(job, Now(), k, i, n)
      requires Ready(job, mapper.cache, db, job.steps[k].LeftName())
      requires Ready(job, mapper.cache, db, job.steps[k].RightName())
      modifies this`db, this`view, this`position, fate
      ensures fate.Since(old(fate.clock), alive)
      ensures db.tables == old(db.tables)
      ensures Sound(job, Now())
      ensures alive ==> AliveAt(job, Now(), k, i + 1, n)
      ensures alive ==> LinksAfter(old(db), db, job.steps[k].LinkTable(), job.steps[k].Links? && job.steps[k].refresh)
    {
      var s := job.steps[k];
      var e, refresh := s.LinkTable(), s.Links? && s.refresh;
      ghost var left, right := StepNamed(job.steps, s.LeftName()), StepNamed(job.steps, s.RightName());
      ghost var cells := PageCells(job.steps, job.selected, k, q);
      assert LinksOk(db, s, view);
      var pairs := CollectPairs(e, s.linkPages[q].links, mapper, s.LeftName(), s.RightName(), left, right,
                                db.tables[s.LeftName()], db.tables[s.RightName()]);
      var ls := StorePage(db.links[e], pairs, refresh);
      alive := fate.Survives();
      if !alive { return; }
      LinkCellsOnly(e, left, right, s.linkPages[q].links);
      StoredLinks(db, e, ls, pairs, refresh);
      CommitLinks(k, q, i, n, e, refresh, ls, pairs, cells);
      alive := fate.Survives();
    }

    method CommitLinks(k: nat, q: nat, i: nat, n: nat, e: string, refresh: bool, ls: seq<Link>,
                       ghost pairs: seq<Link>, ghost cells: View)
      requires k < |job.steps| && job.steps[k].HasLinks() && Selected(job.selected, job.steps[k].name)
      requires q < LinkPart(job.steps[k]) && i == RowPart(job.steps[k]) + q && AliveAt(job, Now(), k, i, n)
      requires e == job.steps[k].LinkTable() && refresh == (job.steps[k].Links? && job.steps[k].refresh)
      requires cells == PageCells(job.steps, job.selected, k, q) && OnlyLinks(cells, e)
      requires LinksOk(db, job.steps[k], view)
      requires NoDuplicates(db.tables[job.steps[k].LeftName()]) && NoDuplicates(db.tables[job.steps[k].RightName()])
      requires Mirrors(e, pairs, db.tables[job.steps[k].LeftName()], db.tables[job.steps[k].RightName()], cells)
      requires StoreEffect(db.links[e], ls, pairs, refresh)
      modifies this`db, this`view, this`position
      ensures db == old(db).(links := old(db).links[e := ls])
      ensures AliveAt(job, Now(), k, i + 1, n)
    {
      LinkPageCommittable(job, Now(), k, q, i, e, ls, pairs, cells, refresh);
      CommitPage(k, i, n, db.(links := db.links[e := ls]), LinkWrites(cells, refresh));
    }

    method ImportLinkPage(k: nat, q: nat, n: nat) returns (alive: bool)
      requires k < |job.steps| && job.steps[k].Links? && Selected(job.selected, job.steps[k].name)
      requires q < LinkPageCount(job.steps[k]) && AliveAt(job, Now(), k, q, n)
      modifies this`db, this`checkpoint, this`view, this`position, fate
      ensures fate.Since(old(fate.clock), alive)
      ensures Sound(job, Now())
      ensures alive ==> AliveAt(job, Now(), k, q + 1, n)
      ensures alive ==> checkpoint == Some(Checkpoint(job.steps[k].name, q + 1))
    {
      ParentsReady(job, Now(), k, q, n);
      alive := StoreLinkPage(k, q, q, n);
      if !alive { return; }
      alive := WriteCheckpoint(k, q + 1, n, q + 1, q);
    }

    /** `contact_tags` and `contact_custom_fields`: a checkpoint after every page. */
    method RunLinks(k: nat, first: nat) returns (alive: bool)
      requires k < |job.steps| && job.steps[k].Links? && Selected(job.selected, job.steps[k].name)
      requires first == 0 || first < LinkPageCount(job.steps[k])
      requires AliveAt(job, Now(), k, first, first)
      modifies this`db, this`checkpoint, this`view, this`position, mapper, fate
      ensures fate.Since(old(fate.clock), alive)
      ensures Sound(job, Now())
      ensures alive ==> AliveAt(job, Now(), k + 1, 0, 0)
    {
      alive := ReadLinkPages(k, first);
      if !alive { return; }
      StepDone(job, Now(), k, first);
    }

    method ReadLinkPages(k: nat, first: nat) returns (alive: bool)
      requires k < |job.steps| && job.steps[k].Links? && Selected(job.selected, job.steps[k].name)
      requires first == 0 || first < LinkPageCount(job.steps[k])
      requires AliveAt(job, Now(), k, first, first)
      modifies this`db, this`checkpoint, this`view, this`position, fate
      ensures fate.Since(old(fate.clock), alive)
      ensures Sound(job, Now())
      ensures alive ==> AliveAt(job, Now(), k, LinkPageCount(job.steps[k]), first)
    {
      var s := job.steps[k];
      var q := first;
      if LinkPageCount(s) == 0 { FirstLinkPage(s); }
      while q < |s.linkPages| && s.linkPages[q].size != 0
        invariant old(fate.clock) <= fate.clock
        invariant q < LinkPageCount(s) || (q == LinkPageCount(s) && LinksEnd(s, q))
        invariant AliveAt(job, Now(), k, q, first)
        decreases |s.linkPages| - q
      {
        LinkPageRead(s, q);
        alive := ImportLinkPage(k, q, first);
        if !alive { return; }
        q := q + 1;
        if s.linkPages[q - 1].size < s.batch { break; }
      }
      if q < LinkPageCount(s) { LinkPageRead(s, q); }
      alive := true;
    }

    // ---- messages ----

    method RecordMessage(k: nat, i: nat, p: nat, id: nat, ghost key: string, n: nat)
      requires AliveAt(job, Now(), k, i, p) && k < |job.steps| && job.steps[k].Messages?
      requires Importable(job.steps[k], id, key)
      modifies mapper
      ensures mapper.cache == old(mapper.cache)[MapKey(job.steps[k].name, id) := n]
      ensures mapper.rows == if MapKey(job.steps[k].name, id) in old(mapper.rows) then old(mapper.rows)
                             else old(mapper.rows)[MapKey(job.steps[k].name, id) := n]
      ensures AliveAt(job, Now(), k, i, p)
    {
      ghost var before := Now();
      RecordingMessageKeeps(job, before, k, i, p, id, key, n);
      mapper.Record(job.steps[k].name, id, n);
      assert Now() == Recording(before, MapKey(job.steps[k].name, id), n);
    }

    /** The mappings of page `p`, recorded while the rows `t'` they point to are not committed yet. */
    method RecordMessages(k: nat, p: nat, cands: seq<SourceRow>, ids: map<string, nat>, ghost t': Table)
      returns (alive: bool)
      requires k < |job.steps| && job.steps[k].Messages? && p < RowPages(job.steps[k])
      requires AliveAt(job, Now(), k, p, 0)
      requires Lists(cands, PageCandidates(job.steps[k], p)) && PageIds(job.steps[k], p, t', ids)
      requires FreshUpTo(mapper.cache, job.steps[k], t', p)
      modifies mapper, fate
      ensures fate.Since(old(fate.clock), alive)
      ensures AliveAt(job, Now(), k, p, 0)
      ensures alive ==> FreshUpTo(mapper.cache, job.steps[k], t', p + 1)
      ensures PageRecordings(job.steps[k], p, ids, old(mapper.rows), mapper.rows)
    {
      var s := job.steps[k];
      assert IdsConsistent(s);
      alive := fate.Survives();
      if !alive { return; }
      for i := 0 to |cands|
        invariant old(fate.clock) <= fate.clock
        invariant AliveAt(job, Now(), k, p, 0)
        invariant FreshUpTo(mapper.cache, s, t', p)
        invariant forall j | 0 <= j < i :: MappedAnew(mapper.cache, s, t', cands[j])
        invariant PageRecordings(s, p, ids, old(mapper.rows), mapper.rows)
      {
        var c := cands[i];
        PageIdsAt(s, p, t', ids, c);
        if c.key in ids && c.id.Some? {
          assert OnPage(s, p, c.id.value, c.key);
          assert PageRecording(s, p, ids, MapKey(s.name, c.id.value), ids[c.key]);
          ghost var m := mapper.cache;
          RecordMessage(k, p, 0, c.id.value, c.key, ids[c.key]);
          MappingsKeptAnew(m, s, t', p, cands, i, c, ids[c.key]);
        }
        alive := fate.Survives();
        if !alive { return; }
      }
      PageMappedAnew(mapper.cache, s, t', p, cands);
      alive := true;
    }

    /** The page transaction: rows, mappings and, if nothing goes wrong, the commit. */
    method UpsertMessages(k: nat, p: nat, cands: seq<SourceRow>) returns (alive: bool)
      requires k < |job.steps| && job.steps[k].Messages? && Selected(job.selected, job.steps[k].name)
      requires p < RowPages(job.steps[k]) && AliveAt(job, Now(), k, p, 0)
      requires Lists(cands, PageCandidates(job.steps[k], p))
      requires TableOk(db, job.steps[k], view)
      requires FreshUpTo(mapper.cache, job.steps[k], db.tables[job.steps[k].name], p)
      modifies this`db, this`view, this`position, mapper, fate
      ensures fate.Since(old(fate.clock), alive)
      ensures Sound(job, Now())
      ensures job.steps[k].name in db.tables
      ensures alive ==> AliveAt(job, Now(), k, p + 1, 0)
                        && FreshUpTo(mapper.cache, job.steps[k], db.tables[job.steps[k].name], p + 1)
      ensures DanglesIffNew(job.steps[k], p, old(mapper.rows), mapper.rows, db.tables[job.steps[k].name])
    {
      var s := job.steps[k];
      ghost var d := PageCandidates(s, p);
      var t', next', ids :=
        ImportPage(db.tables[s.name], db.sequences[s.name], cands, s.defaults, s.hidden, s.Entity?, d);
      PageGrows(db.tables[s.name], t', db.sequences[s.name], d, s);
      PageIdsFound(s, p, db.tables[s.name], t', db.sequences[s.name], ids);
      FreshAfterRows(mapper.cache, s, db.tables[s.name], t', p);
      assert IdsConsistent(s);
      alive := RecordMessages(k, p, cands, ids, t');
      RolledBack(s, p, db.tables[s.name], t', db.sequences[s.name], ids, old(mapper.rows), mapper.rows);
      if !alive {
        RollBack(k, next');
        return;
      }
      CommitRows(k, p, 0, t', next');
      alive := fate.Survives();
    }

    method CommitRows(k: nat, p: nat, q: nat, t': Table, next': nat)
      requires k < |job.steps| && job.steps[k].HasRows() && Selected(job.selected, job.steps[k].name)
      requires p < RowPages(job.steps[k]) && AliveAt(job, Now(), k, p, q)
      requires TableOk(db, job.steps[k], view)
      requires PageEffect(db.tables[job.steps[k].name], t', db.sequences[job.steps[k].name],
                          PageCandidates(job.steps[k], p), job.steps[k].defaults, job.steps[k].hidden,
                          job.steps[k].Entity?)
      requires NoDuplicates(t') && forall id :: id in t' ==> id < next'
      modifies this`db, this`view, this`position
      ensures db == WithTable(old(db), job.steps[k].name, t', next')
      ensures AliveAt(job, Now(), k, p + 1, q)
    {
      var s := job.steps[k];
      ghost var d := PageCandidates(s, p);
      DbAfterRows(job, Now(), k, d, t', next');
      RowPageOp(job, k, p);
      CommitPage(k, p, q, WithTable(db, s.name, t', next'), StepWrites(s, d));
    }

    method ImportMessagePage(k: nat, p: nat) returns (alive: bool)
      requires k < |job.steps| && job.steps[k].Messages? && Selected(job.selected, job.steps[k].name)
      requires p < RowPages(job.steps[k]) && AliveAt(job, Now(), k, p, 0)
      requires job.steps[k].name in db.tables
      requires FreshUpTo(mapper.cache, job.steps[k], db.tables[job.steps[k].name], p)
      modifies this`db, this`checkpoint, this`view, this`position, mapper, fate
      ensures fate.Since(old(fate.clock), alive)
      ensures Sound(job, Now())
      ensures alive ==> AliveAt(job, Now(), k, p + 1, 0) && job.steps[k].name in db.tables
                        && FreshUpTo(mapper.cache, job.steps[k], db.tables[job.steps[k].name], p + 1)
      ensures alive ==> checkpoint == Some(Checkpoint(job.steps[k].name, p + 1))
    {
      var cands := CollectCandidates(job.steps[k].pages[p], true);
      assert TableOk(db, job.steps[k], view);
      alive := UpsertMessages(k, p, cands);
      if !alive { return; }
      alive := WriteCheckpoint(k, p + 1, 0, p + 1, 0);
    }

    /** Messages, then the links between campaigns and messages. This step always starts over. */
    method RunMessages(k: nat) returns (alive: bool)
      requires k < |job.steps| && job.steps[k].Messages? && Selected(job.selected, job.steps[k].name)
      requires AliveAt(job, Now(), k, 0, 0)
      modifies this`db, this`checkpoint, this`view, this`position, mapper, fate
      ensures fate.Since(old(fate.clock), alive)
      ensures Sound(job, Now())
      ensures alive ==> AliveAt(job, Now(), k + 1, 0, 0)
    {
      var s := job.steps[k];
      var p := 0;
      assert TableOk(db, s, view);
      if RowPages(s) == 0 { FirstRowPage(s); }
      while p < |s.pages| && s.pages[p] != []
        invariant old(fate.clock) <= fate.clock
        invariant p < RowPages(s) || (p == RowPages(s) && RowsEnd(s, p))
        invariant AliveAt(job, Now(), k, p, 0)
        invariant s.name in db.tables && FreshUpTo(mapper.cache, s, db.tables[s.name], p)
        decreases |s.pages| - p
      {
        RowPageRead(s, p);
        alive := ImportMessagePage(k, p);
        if !alive { return; }
        p := p + 1;
        if |s.pages[p - 1]| < s.batch { break; }
      }
      if p < RowPages(s) { RowPageRead(s, p); }
      if p == 0 {
        StepDone(job, Now(), k, 0);
        return true;
      }
      MessagesReady(job, Now(), k, p, 0);
      alive := LinkCampaigns(k);
    }

    method LinkCampaigns(k: nat) returns (alive: bool)
      requires k < |job.steps| && job.steps[k].Messages? && Selected(job.selected, job.steps[k].name)
      requires RowPages(job.steps[k]) > 0 && AliveAt(job, Now(), k, RowPages(job.steps[k]), 0)
      requires Ready(job, mapper.cache, db, job.steps[k].name)
      modifies this`db, this`checkpoint, this`view, this`position, fate
      ensures fate.Since(old(fate.clock), alive)
      ensures Sound(job, Now())
      ensures alive ==> AliveAt(job, Now(), k + 1, 0, 0)
    {
      alive := ReadCampaignPages(k);
      if !alive { return; }
      StepDone(job, Now(), k, 0);
    }

    method ReadCampaignPages(k: nat) returns (alive: bool)
      requires k < |job.steps| && job.steps[k].Messages? && Selected(job.selected, job.steps[k].name)
      requires RowPages(job.steps[k]) > 0 && AliveAt(job, Now(), k, RowPages(job.steps[k]), 0)
      requires Ready(job, mapper.cache, db, job.steps[k].name)
      modifies this`db, this`view, this`position, fate
      ensures fate.Since(old(fate.clock), alive)
      ensures Sound(job, Now())
      ensures alive ==> AliveAt(job, Now(), k, StepSize(job.steps[k]), 0)
    {
      var s := job.steps[k];
      var q := 0;
      if LinkPageCount(s) == 0 { FirstLinkPage(s); }
      while q < |s.linkPages| && s.linkPages[q].size != 0
        invariant old(fate.clock) <= fate.clock
        invariant q < LinkPageCount(s) || (q == LinkPageCount(s) && LinksEnd(s, q))
        invariant AliveAt(job, Now(), k, RowPart(s) + q, 0)
        invariant Ready(job, mapper.cache, db, s.name)
        decreases |s.linkPages| - q
      {
        LinkPageRead(s, q);
        alive := LinkCampaignPage(k, q);
        if !alive { return; }
        q := q + 1;
        if s.linkPages[q - 1].size < CAMPAIGN_PAGE { break; }
      }
      if q < LinkPageCount(s) { LinkPageRead(s, q); }
      alive := true;
    }

    method LinkCampaignPage(k: nat, q: nat) returns (alive: bool)
      requires k < |job.steps| && job.steps[k].Messages? && Selected(job.selected, job.steps[k].name)
      requires RowPages(job.steps[k]) > 0 && q < LinkPageCount(job.steps[k])
      requires q < |job.steps[k].linkPages| && AliveAt(job, Now(), k, RowPart(job.steps[k]) + q, 0)
      requires Ready(job, mapper.cache, db, job.steps[k].name)
      modifies this`db, this`view, this`position, fate
      ensures fate.Since(old(fate.clock), alive)
      ensures Sound(job, Now()) && db.tables == old(db.tables)
      ensures alive ==> AliveAt(job, Now(), k, RowPart(job.steps[k]) + q + 1, 0)
      ensures alive ==> LinksAfter(old(db), db, job.steps[k].LinkTable(), false)
    {
      ParentsReady(job, Now(), k, RowPart(job.steps[k]) + q, 0);
      alive := StoreLinkPage(k, q, RowPart(job.steps[k]) + q, 0);
    }

    // ---- the pipeline ----

    /** Step `k`, from the page its own resume rule picks out of the checkpoint `ctx` read at process start. */
    method RunStep(k: nat, ctx: Option<Checkpoint>, ghost p: nat) returns (alive: bool)
      requires k < |job.steps| && Selected(job.selected, job.steps[k].name) && AliveAt(job, Now(), k, p, p)
      requires if ctx.Some? && ctx.value.step == job.steps[k].name
               then ResumesAt(job.steps, job.selected, ctx.value, k, p) else p == 0
      modifies this`db, this`checkpoint, this`view, this`position, mapper, fate
      ensures fate.Since(old(fate.clock), alive)
      ensures Sound(job, Now())
      ensures alive ==> AliveAt(job, Now(), k + 1, 0, 0)
    {
      var s := job.steps[k];
      if s.Messages? {
        alive := RunMessages(k);
      } else {
        var first := ResumePage(ctx, s.name);
        if s.Entity? {
          alive := RunEntity(k, first);
        } else {
          alive := RunLinks(k, first);
        }
      }
    }

    /** One turn of the pipeline's loop: steps in front of the checkpointed one and steps not selected are passed
        over. */
    method PipelineStep(k: nat, ctx: Option<Checkpoint>, skipUntil: Option<string>, ghost k0: nat, ghost p0: nat)
      returns (alive: bool, skipUntil': Option<string>)
      requires k < |job.steps|
      requires ctx.Some? ==> ResumesAt(job.steps, job.selected, ctx.value, k0, p0)
      requires skipUntil.Some? ==> k <= k0 && ctx.Some? && skipUntil == Some(ctx.value.step)
      requires skipUntil.None? && ctx.Some? ==> k0 < k
      requires if skipUntil.Some? then AliveAt(job, Now(), k0, p0, p0) else AliveAt(job, Now(), k, 0, 0)
      modifies this`db, this`checkpoint, this`view, this`position, mapper, fate
      ensures fate.Since(old(fate.clock), alive)
      ensures Sound(job, Now())
      ensures alive ==>
                && (skipUntil'.Some? ==> k < k0 && skipUntil' == skipUntil)
                && (skipUntil'.None? && ctx.Some? ==> k0 <= k)
                && if skipUntil'.Some? then AliveAt(job, Now(), k0, p0, p0) else AliveAt(job, Now(), k + 1, 0, 0)
    {
      var s := job.steps[k];
      skipUntil' := skipUntil;
      if !Selected(job.selected, s.name) {
        if skipUntil.None? { StepSkipped(job, Now(), k); }
        return true, skipUntil';
      }
      if ctx.Some? && k != k0 { TablesDiffer(job.steps, job.selected, k, k0); }
      if skipUntil.Some? && s.name != skipUntil.value { return true, skipUntil'; }
      alive := RunStep(k, ctx, if skipUntil.Some? then p0 else 0);
      skipUntil' := None;
    }

    method RunPipeline(ctx: Option<Checkpoint>, ghost k0: nat, ghost p0: nat) returns (alive: bool)
      requires k0 <= |job.steps| && AliveAt(job, Now(), k0, p0, p0)
      requires if ctx.Some? then ResumesAt(job.steps, job.selected, ctx.value, k0, p0) else k0 == p0 == 0
      modifies this`db, this`checkpoint, this`view, this`position, mapper, fate
      ensures fate.Since(old(fate.clock), alive)
      ensures Sound(job, Now())
      ensures alive ==> AliveAt(job, Now(), |job.steps|, 0, 0)
    {
      var skipUntil := if ctx.Some? then Some(ctx.value.step) else None;
      for k := 0 to |job.steps|
        invariant old(fate.clock) <= fate.clock
        invariant skipUntil.Some? ==> k <= k0 && ctx.Some? && skipUntil == Some(ctx.value.step)
        invariant if skipUntil.Some? then AliveAt(job, Now(), k0, p0, p0) else AliveAt(job, Now(), k, 0, 0)
        invariant skipUntil.None? && ctx.Some? ==> k0 < k
      {
        alive, skipUntil := PipelineStep(k, ctx, skipUntil, k0, p0);
        if !alive { return; }
      }
      alive := true;
    }

    /** One process working on the job, from loading the id map to the end of the pipeline or its own death. */
    method Process() returns (alive: bool)
      requires Valid() && !completed
      modifies this, mapper, fate
      ensures fate.Since(old(fate.clock), alive)
      ensures Valid() && (alive <==> completed)
      ensures completed ==> Holds(job.steps, db, job.Expected())
      ensures ResumedAt(job, old(checkpoint), resumed)
    {
      ghost var was := Now();
      ghost var k, p := Restarted(job, was);
      mapper.LoadFromDb();
      position, resumed := job.At(k, p), job.At(k, p);
      assert Now() == was.(cache := was.rows, position := job.At(k, p));
      alive := RunPipeline(checkpoint, k, p);
      if !alive { return; }
      alive := fate.Survives();
      completed := alive;
      if alive { job.Finished(view); }
    }

    /** The queue hands the job out again until a process survives it or the attempts are used up. However many die
        and wherever, a completed job leaves what one uninterrupted run leaves; and it takes no more attempts than
        there are deaths to come, and one. */
    method Run(attempts: nat)
      requires Valid() && !completed
      modifies this, mapper, fate
      ensures Valid()
      ensures completed ==> Holds(job.steps, db, job.Expected())
      ensures attempts > |old(fate.Ahead())| ==> completed
    {
      var n := 0;
      while n < attempts && !completed
        invariant n <= attempts && Valid() && (completed ==> Holds(job.steps, db, job.Expected()))
        invariant !completed ==> n + |fate.Ahead()| <= |old(fate.Ahead())|
      {
        ghost var before := fate.Ahead();
        var alive := Process();
        n := n + 1;
        if !alive { OneDeathLess(before, fate.Ahead(), fate.clock - 1); }
      }
    }
  }

  lemma {:induction false} OneDeathLess(before: set<nat>, after: set<nat>, death: nat)
    requires after <= before && death in before && death !in after
    ensures |after| < |before|
  {
    Smaller(after, before - {death});
  }

  lemma {:induction false} Smaller(a: set<nat>, b: set<nat>)
    requires a <= b
    ensures |a| <= |b|
  {
    if a != {} {
      var x :| x in a;
      Smaller(a - {x}, b - {x});
    }
  }
}
