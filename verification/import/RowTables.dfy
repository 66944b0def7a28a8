/** Tables of the target account, keyed by database id, and the transaction that imports one page of rows. */
module RowTables {
  import opened Upserts
  import opened ImportSource

  datatype Row = Row(key: string, cols: Columns)

  type Table = map<nat, Row>

  ghost function Keys(t: Table): set<string> {
    set id | id in t :: t[id].key
  }

  ghost predicate SameKey(t: Table, i: nat, j: nat)
    requires i in t && j in t
  {
    t[i].key == t[j].key
  }

  /** At most one row per natural key. The database does not enforce this for every table. */
  ghost predicate NoDuplicates(t: Table) {
    forall i, j {:trigger SameKey(t, i, j)} | i in t && j in t && SameKey(t, i, j) :: i == j
  }

  /** `v` holds exactly the rows of `t` as the cells of entity `e`, database ids forgotten. */
  ghost predicate Shows(t: Table, e: string, v: View) {
    && (forall id :: id in t ==> (EntityCell(e, t[id].key) in v && v[EntityCell(e, t[id].key)] == t[id].cols))
    && (forall k :: EntityCell(e, k) in v ==> k in Keys(t))
  }

  /** The keys of the first `n` candidates. */
  ghost function KeysOf(cands: seq<SourceRow>, n: nat): set<string>
    requires n <= |cands|
  {
    if n == 0 then {} else KeysOf(cands, n - 1) + {cands[n - 1].key}
  }

  /** Candidates in page order, each natural key once. */
  ghost predicate Lists(cands: seq<SourceRow>, d: map<string, SourceRow>) {
    && (forall i | 0 <= i < |cands| :: cands[i].key in d && d[cands[i].key] == cands[i])
    && (forall i {:trigger KeysOf(cands, i)} | 0 <= i < |cands| :: cands[i].key !in KeysOf(cands, i))
    && KeysOf(cands, |cands|) == d.Keys
  }

  lemma {:induction false} KeysOfPrefix(cands: seq<SourceRow>, more: seq<SourceRow>, n: nat)
    requires n <= |cands|
    ensures KeysOf(cands + more, n) == KeysOf(cands, n)
  {
    if n > 0 {
      KeysOfPrefix(cands, more, n - 1);
    }
  }

  lemma {:induction false} ListsAppend(cands: seq<SourceRow>, d: map<string, SourceRow>, row: SourceRow)
    requires Lists(cands, d) && row.key !in d
    ensures Lists(cands + [row], d[row.key := row])
  {
    var cands', d' := cands + [row], d[row.key := row];
    forall i | 0 <= i < |cands'| ensures cands'[i].key !in KeysOf(cands', i) {
      KeysOfPrefix(cands, [row], i);
      assert i < |cands| ==> cands'[i] == cands[i];
    }
    KeysOfPrefix(cands, [row], |cands|);
    assert KeysOf(cands', |cands'|) == d'.Keys;
    forall i | 0 <= i < |cands'| ensures cands'[i].key in d' && d'[cands'[i].key] == cands'[i] {
      if i < |cands| {
        assert cands'[i] == cands[i];
      }
    }
  }

  /** Row `i` is the first one with its natural key. */
  ghost predicate FirstWithKey(rows: seq<SourceRow>, i: nat)
    requires i < |rows|
  {
    forall j | 0 <= j < i :: rows[j].key != rows[i].key
  }

  ghost predicate HasKey(cands: seq<SourceRow>, key: string) {
    exists c <- cands :: c.key == key
  }

  ghost predicate FirstAmong(rows: seq<SourceRow>, n: nat, c: SourceRow)
    requires n <= |rows|
  {
    exists i {:trigger FirstWithKey(rows, i)} :: 0 <= i < n && rows[i] == c && FirstWithKey(rows, i)
  }

  /** `cands` are the first rows of their keys among the first `n` rows. */
  ghost predicate FirstRows(rows: seq<SourceRow>, n: nat, keepEmpty: bool, cands: seq<SourceRow>)
    requires n <= |rows|
  {
    && (forall c <- cands :: (keepEmpty || c.key != "") && FirstAmong(rows, n, c))
    && (forall i {:trigger HasKey(cands, rows[i].key)} | 0 <= i < n :: keepEmpty || rows[i].key != "" ==>
          HasKey(cands, rows[i].key))
  }

  lemma {:induction false} FirstAmongMore(rows: seq<SourceRow>, n: nat, c: SourceRow)
    requires n < |rows| && FirstAmong(rows, n, c)
    ensures FirstAmong(rows, n + 1, c)
  {
  }

  lemma {:induction false} RowDropped(rows: seq<SourceRow>, n: nat, keepEmpty: bool, cands: seq<SourceRow>)
    requires n < |rows| && FirstRows(rows, n, keepEmpty, cands)
    requires (rows[n].key == "" && !keepEmpty) || HasKey(cands, rows[n].key)
    ensures FirstRows(rows, n + 1, keepEmpty, cands)
  {
    forall c <- cands ensures FirstAmong(rows, n + 1, c) {
      FirstAmongMore(rows, n, c);
    }
  }

  lemma {:induction false} RowKept(rows: seq<SourceRow>, n: nat, keepEmpty: bool, cands: seq<SourceRow>)
    requires n < |rows| && FirstRows(rows, n, keepEmpty, cands)
    requires (keepEmpty || rows[n].key != "") && !HasKey(cands, rows[n].key)
    ensures FirstRows(rows, n + 1, keepEmpty, cands + [rows[n]])
  {
    var cands' := cands + [rows[n]];
    forall i | 0 <= i < n ensures rows[i].key != rows[n].key {
      assert HasKey(cands, rows[i].key) || (rows[i].key == "" && !keepEmpty);
    }
    assert FirstWithKey(rows, n);
    forall c <- cands' ensures FirstAmong(rows, n + 1, c) {
      if c in cands {
        FirstAmongMore(rows, n, c);
      }
    }
    forall i | 0 <= i <= n && (keepEmpty || rows[i].key != "") ensures HasKey(cands', rows[i].key) {
      if i < n {
        assert HasKey(cands, rows[i].key);
        var c :| c in cands && c.key == rows[i].key;
        assert c in cands';
      } else {
        assert rows[n] in cands';
      }
    }
  }

  lemma {:induction false} KeysListed(cands: seq<SourceRow>, n: nat, key: string)
    requires n <= |cands|
    ensures key in KeysOf(cands, n) <==> HasKey(cands[..n], key)
  {
    if n > 0 {
      KeysListed(cands, n - 1, key);
      assert cands[..n] == cands[..n - 1] + [cands[n - 1]];
    }
  }

  lemma {:induction false} Listed(cands: seq<SourceRow>, d: map<string, SourceRow>, key: string)
    requires Lists(cands, d)
    ensures key in d <==> HasKey(cands, key)
  {
    KeysListed(cands, |cands|, key);
    assert cands[..|cands|] == cands;
  }

  method CollectCandidates(rows: seq<SourceRow>, keepEmpty: bool) returns (cands: seq<SourceRow>)
    ensures Lists(cands, Candidates(rows, keepEmpty))
    ensures FirstRows(rows, |rows|, keepEmpty, cands)
  {
    cands := [];
    var seen: set<string> := {};
    ghost var d: map<string, SourceRow> := map[];
    for i := 0 to |rows|
      invariant d == Candidates(rows[..i], keepEmpty) && seen == d.Keys
      invariant Lists(cands, d)
      invariant FirstRows(rows, i, keepEmpty, cands)
    {
      assert rows[..i + 1][..i] == rows[..i];
      var row := rows[i];
      Listed(cands, d, row.key);
      if (row.key == "" && !keepEmpty) || row.key in seen {
        RowDropped(rows, i, keepEmpty, cands);
        continue;
      }
      RowKept(rows, i, keepEmpty, cands);
      ListsAppend(cands, d, row);
      seen, cands, d := seen + {row.key}, cands + [row], d[row.key := row];
    }
    assert rows[..|rows|] == rows;
  }

  /** Row `id` of `t'` was inserted from the page: fresh id, unknown key, source columns plus defaults. */
  ghost predicate NewRow(known: set<string>, row: Row, id: nat, next: nat, d: map<string, SourceRow>, defaults: Columns,
                         hidden: set<string>)
  {
    && id >= next
    && row.key in d && row.key !in known && row.key !in hidden
    && row.cols == Full(d[row.key], defaults)
  }

  /** What the refresh half makes of a row that was there before. */
  function Refreshed(row: Row, d: map<string, SourceRow>): Row {
    if row.key in d then row.(cols := row.cols + Patch(d[row.key])) else row
  }

  /** What a whole page transaction does to `t`: rows keep their id and key, known keys are refreshed, unknown
      ones get a fresh id, and nothing else appears. */
  ghost predicate PageEffect(t: Table, t': Table, next: nat, d: map<string, SourceRow>, defaults: Columns,
                             hidden: set<string>, refresh: bool)
  {
    && (forall id :: id in t ==> id in t' && t'[id] == (if refresh then Refreshed(t[id], d) else t[id]))
    && (forall id :: id in t' && id !in t ==> NewRow(Keys(t), t'[id], id, next, d, defaults, hidden))
    && Keys(t') == Keys(t) + (d.Keys - hidden)
  }

  lemma {:induction false} KeysInsert(t: Table, id: nat, row: Row)
    requires id !in t
    ensures Keys(t[id := row]) == Keys(t) + {row.key}
    ensures NoDuplicates(t) && row.key !in Keys(t) ==> NoDuplicates(t[id := row])
  {
    var t' := t[id := row];
    if NoDuplicates(t) && row.key !in Keys(t) {
      forall i, j | i in t' && j in t' && SameKey(t', i, j) ensures i == j {
        assert i in t && j in t ==> SameKey(t, i, j);
      }
    }
    forall k | k in Keys(t) + {row.key} ensures k in Keys(t') {
      if k in Keys(t) {
        var i :| i in t && t[i].key == k;
        assert t'[i].key == k;
      } else {
        assert t'[id].key == k;
      }
    }
  }

  lemma {:induction false} SameKeys(t: Table, t': Table)
    requires t.Keys == t'.Keys && forall id :: id in t ==> t'[id].key == t[id].key
    ensures Keys(t) == Keys(t') && (NoDuplicates(t) ==> NoDuplicates(t'))
  {
    if NoDuplicates(t) {
      forall i, j | i in t' && j in t' && SameKey(t', i, j) ensures i == j {
        assert SameKey(t, i, j);
      }
    }
    forall k ensures k in Keys(t) <==> k in Keys(t') {
      if id :| id in t && t[id].key == k {
        assert t'[id].key == k;
      }
      if id :| id in t' && t'[id].key == k {
        assert t[id].key == k;
      }
    }
  }

  /** The lookup a query result is turned into: natural key to id. With duplicates any of them may win. */
  method IndexByKey(t: Table, found: set<nat>) returns (ids: map<string, nat>)
    requires found <= t.Keys
    ensures forall k :: k in ids ==> ids[k] in found && t[ids[k]].key == k
    ensures forall id :: id in found ==> t[id].key in ids
  {
    ids := map[];
    var rest := found;
    while rest != {}
      invariant rest <= found
      invariant forall k :: k in ids ==> ids[k] in found && t[ids[k]].key == k
      invariant forall id :: id in found && id !in rest ==> t[id].key in ids
      decreases |rest|
    {
      var id :| id in rest;
      ids := ids[t[id].key := id];
      rest := rest - {id};
    }
  }

  lemma {:induction false} OneMore(known: set<string>, done: set<string>, hidden: set<string>, key: string)
    ensures known + (done + {key} - hidden) ==
            known + (done - hidden) + if key in known || key in hidden then {} else {key}
  {
  }

  method InsertMissing(t: Table, next: nat, cands: seq<SourceRow>, existing: set<string>, defaults: Columns,
                       hidden: set<string>, ghost d: map<string, SourceRow>)
    returns (t': Table, next': nat)
    requires Lists(cands, d) && NoDuplicates(t)
    requires forall id :: id in t ==> id < next
    requires existing == Keys(t) * d.Keys
    ensures PageEffect(t, t', next, d, defaults, hidden, false)
    ensures NoDuplicates(t') && next <= next'
    ensures forall id :: id in t' ==> id < next'
  {
    ghost var known := Keys(t);
    t', next' := t, next;
    for i := 0 to |cands|
      invariant next <= next' && forall id :: id in t' ==> id < next'
      invariant forall id :: id in t ==> id in t' && t'[id] == t[id]
      invariant forall id :: id in t' && id !in t ==> NewRow(known, t'[id], id, next, d, defaults, hidden)
      invariant Keys(t') == known + (KeysOf(cands, i) - hidden)
      invariant NoDuplicates(t')
    {
      var c := cands[i];
      OneMore(known, KeysOf(cands, i), hidden, c.key);
      if c.key !in existing && c.key !in hidden {
        var row := Row(c.key, Full(c, defaults));
        KeysInsert(t', next', row);
        t', next' := t'[next' := row], next' + 1;
      }
    }
  }

  method RefreshExisting(t: Table, t1: Table, cands: seq<SourceRow>, existing: set<nat>,
                         ghost d: map<string, SourceRow>)
    returns (t': Table)
    requires Lists(cands, d) && NoDuplicates(t)
    requires forall id :: id in t ==> id in t1 && t1[id] == t[id]
    requires forall id :: id in existing <==> id in t && t[id].key in d
    ensures t'.Keys == t1.Keys
    ensures forall id :: id in t1 ==> t'[id] == (if id in t then Refreshed(t[id], d) else t1[id])
  {
    var byKey := IndexByKey(t, existing);
    t' := t1;
    for i := 0 to |cands|
      invariant RefreshedUpTo(t, t1, t', cands, i, d)
    {
      var c := cands[i];
      NextRefreshed(t, t1, t', cands, i, existing, byKey, d);
      if c.key in byKey {
        var id := byKey[c.key];
        t' := t'[id := t'[id].(cols := t'[id].cols + Patch(c))];
      }
    }
  }

  /** The rows with one of the first `n` keys have been refreshed. */
  ghost predicate RefreshedUpTo(t: Table, t1: Table, t': Table, cands: seq<SourceRow>, n: nat,
                                d: map<string, SourceRow>)
    requires n <= |cands|
  {
    && t'.Keys == t1.Keys
    && forall id :: id in t1 ==>
         t'[id] == (if id in t && t[id].key in KeysOf(cands, n) then Refreshed(t[id], d) else t1[id])
  }

  /** Candidate `i` concerns at most one row, which none before it has touched. */
  lemma {:induction false} NextRefreshed(t: Table, t1: Table, t': Table, cands: seq<SourceRow>, i: nat,
                                         existing: set<nat>, byKey: map<string, nat>, d: map<string, SourceRow>)
    requires Lists(cands, d) && NoDuplicates(t) && i < |cands| && RefreshedUpTo(t, t1, t', cands, i, d)
    requires forall id :: id in t ==> id in t1 && t1[id] == t[id]
    requires forall id :: id in existing <==> id in t && t[id].key in d
    requires forall k :: k in byKey ==> byKey[k] in existing && byKey[k] in t && t[byKey[k]].key == k
    requires forall id :: id in existing && id in t ==> t[id].key in byKey
    ensures var c := cands[i];
            if c.key in byKey then
              var id := byKey[c.key];
              id in t' && RefreshedUpTo(t, t1, t'[id := t'[id].(cols := t'[id].cols + Patch(c))], cands, i + 1, d)
            else RefreshedUpTo(t, t1, t', cands, i + 1, d)
  {
    var c := cands[i];
    assert c.key !in KeysOf(cands, i) && KeysOf(cands, i + 1) == KeysOf(cands, i) + {c.key};
    if c.key in byKey {
      var id := byKey[c.key];
      forall j | j in t && t[j].key == c.key ensures j == id {
        assert SameKey(t, id, j);
      }
    } else {
      forall j | j in t ensures t[j].key != c.key {
        assert t[j].key in d ==> j in existing;
      }
    }
  }

  /** What a refresh leaves of row `was`, column by column: the page's value, but never its times, else the old one. */
  ghost predicate Overwritten(was: Columns, cols: Columns, page: Columns) {
    && cols.Keys == was.Keys + (page.Keys - {"createdAt", "updatedAt"})
    && forall c :: c in cols ==>
         cols[c] == if c in page && c != "createdAt" && c != "updatedAt" then page[c] else was[c]
  }

  /** What an insert stores, column by column: the page's value, else the default; `updatedAt` is the database's own. */
  ghost predicate Filled(cols: Columns, page: Columns, defaults: Columns) {
    && cols.Keys == page.Keys + defaults.Keys - {"updatedAt"}
    && forall c :: c in cols ==> cols[c] == if c in page then page[c] else defaults[c]
  }

  /** The columns of all rows after the transaction of a page with candidates `d`. */
  ghost predicate ColumnsSet(t: Table, t': Table, d: map<string, SourceRow>, defaults: Columns, refresh: bool) {
    && (forall id :: id in t && refresh && t[id].key in d ==>
          id in t' && Overwritten(t[id].cols, t'[id].cols, d[t[id].key].cols))
    && (forall id :: id in t && !(refresh && t[id].key in d) ==> id in t' && t'[id].cols == t[id].cols)
    && (forall id :: id in t' && id !in t ==> t'[id].key in d && Filled(t'[id].cols, d[t'[id].key].cols, defaults))
  }

  lemma {:induction false} EffectSetsColumns(t: Table, t': Table, next: nat, d: map<string, SourceRow>,
                                             defaults: Columns, hidden: set<string>, refresh: bool)
    requires PageEffect(t, t', next, d, defaults, hidden, refresh)
    ensures ColumnsSet(t, t', d, defaults, refresh)
  {
    forall id | id in t' && id !in t ensures t'[id].key in d && Filled(t'[id].cols, d[t'[id].key].cols, defaults) {
      assert NewRow(Keys(t), t'[id], id, next, d, defaults, hidden);
    }
  }

  /** The transaction of one page: look up, insert what is missing, refresh what is there, look up again. */
  method ImportPage(t: Table, next: nat, cands: seq<SourceRow>, defaults: Columns, hidden: set<string>,
                    refresh: bool, ghost d: map<string, SourceRow>)
    returns (t': Table, next': nat, ids: map<string, nat>)
    requires Lists(cands, d) && NoDuplicates(t)
    requires forall id :: id in t ==> id < next
    ensures PageEffect(t, t', next, d, defaults, hidden, refresh)
    ensures ColumnsSet(t, t', d, defaults, refresh)
    ensures NoDuplicates(t') && next <= next'
    ensures forall id :: id in t' ==> id < next'
    ensures ids.Keys == d.Keys * Keys(t')
    ensures forall k :: k in ids ==> ids[k] in t' && t'[ids[k]].key == k
  {
    var wanted := WantedKeys(cands, d);
    var existing, existingKeys := FindByKeys(t, wanted);
    var t1: Table;
    t1, next' := InsertMissing(t, next, cands, existingKeys, defaults, hidden, d);
    t' := t1;
    if refresh {
      t' := RefreshExisting(t, t1, cands, existing, d);
      RefreshEffect(t, t1, t', next, d, defaults, hidden);
    }
    EffectSetsColumns(t, t', next, d, defaults, hidden, refresh);
    var all, found := FindByKeys(t', wanted);
    ids := IndexByKey(t', all);
    assert ids.Keys == found;
  }

  /** The rows a query by natural key returns, and their keys. */
  method FindByKeys(t: Table, wanted: set<string>) returns (ids: set<nat>, keys: set<string>)
    ensures forall id :: id in ids <==> id in t && t[id].key in wanted
    ensures keys == Keys(t) * wanted
  {
    ids := set id | id in t && t[id].key in wanted;
    keys := set id | id in ids :: t[id].key;
  }

  lemma {:induction false} RefreshEffect(t: Table, t1: Table, t': Table, next: nat, d: map<string, SourceRow>,
                                         defaults: Columns, hidden: set<string>)
    requires PageEffect(t, t1, next, d, defaults, hidden, false)
    requires t'.Keys == t1.Keys
    requires forall id :: id in t1 ==> t'[id] == (if id in t then Refreshed(t[id], d) else t1[id])
    ensures PageEffect(t, t', next, d, defaults, hidden, true)
    ensures NoDuplicates(t1) ==> NoDuplicates(t')
  {
    SameKeys(t1, t');
  }

  method WantedKeys(cands: seq<SourceRow>, ghost d: map<string, SourceRow>) returns (keys: set<string>)
    requires Lists(cands, d)
    ensures keys == d.Keys
  {
    keys := {};
    for i := 0 to |cands|
      invariant keys == KeysOf(cands, i)
    {
      keys := keys + {cands[i].key};
    }
  }

  /** Up to ids, a page transaction is the commit of that page's writes. */
  lemma {:induction false} PageShows(t: Table, t': Table, next: nat, d: map<string, SourceRow>, defaults: Columns,
                                     hidden: set<string>, refresh: bool, e: string, v: View)
    requires Shows(t, e, v) && PageEffect(t, t', next, d, defaults, hidden, refresh)
    requires Keys(t) !! hidden
    ensures Shows(t', e, Commit(RowWrites(e, d, defaults, hidden, refresh), v))
    ensures Keys(t') !! hidden
  {
    var w := RowWrites(e, d, defaults, hidden, refresh);
    var v' := Commit(w, v);
    forall id | id in t'
      ensures EntityCell(e, t'[id].key) in v' && v'[EntityCell(e, t'[id].key)] == t'[id].cols
    {
      if id in t {
        OldRowShows(t, id, d, defaults, hidden, refresh, e, v);
      } else {
        assert NewRow(Keys(t), t'[id], id, next, d, defaults, hidden);
      }
    }
    forall k | EntityCell(e, k) in v' ensures k in Keys(t') {
      if EntityCell(e, k) !in v {
        assert EntityCell(e, k) in w;
      }
    }
  }

  lemma {:induction false} OldRowShows(t: Table, id: nat, d: map<string, SourceRow>, defaults: Columns,
                                       hidden: set<string>, refresh: bool, e: string, v: View)
    requires Shows(t, e, v) && Keys(t) !! hidden && id in t
    ensures var c, v' := EntityCell(e, t[id].key), Commit(RowWrites(e, d, defaults, hidden, refresh), v);
            c in v' && v'[c] == if refresh then Refreshed(t[id], d).cols else t[id].cols
  {
    var c := EntityCell(e, t[id].key);
    assert c in v && v[c] == t[id].cols;
    assert t[id].key in Keys(t);
    assert v[c] + map[] == v[c];
  }

  /** A page transaction leaves every other entity's cells alone. */
  lemma {:induction false} OtherTablesShow(t: Table, e: string, w: Writes, v: View)
    requires Shows(t, e, v)
    requires forall c :: c in w ==> c.entity != e
    ensures Shows(t, e, Commit(w, v))
  {
    var v' := Commit(w, v);
    forall id | id in t
      ensures EntityCell(e, t[id].key) in v' && v'[EntityCell(e, t[id].key)] == t[id].cols
    {
      assert EntityCell(e, t[id].key) !in w;
    }
    forall k | EntityCell(e, k) in v' ensures k in Keys(t) {
      assert EntityCell(e, k) !in w;
    }
  }
}
