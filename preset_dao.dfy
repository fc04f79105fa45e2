/**
 * The `container_presets` table and the data-access operations on it:
 * queries, insert with REPLACE on a clashing id, update, delete, count and
 * the largest display order. The primary key is AUTOINCREMENT, so generated
 * ids are never reused, not even after every row has been deleted.
 */
module PresetDao {
  import opened Wrappers
  import opened PresetEntity

  /** The table's contents: rows by id, and the next id the table will generate. */
  datatype TableState = TableState(rows: map<int, ContainerPresetEntity>, nextId: int)

  /** Every row is stored under its own id, no row has the "unsaved" id, and
      every id is below the next generated one. */
  predicate WellFormed(t: TableState) {
    t.nextId > AutoId
    && forall id :: id in t.rows ==> id != AutoId && id < t.nextId && t.rows[id].id == id
  }

  function Max(a: int, b: int): int { if a < b then b else a }

  /** Some element of a non-empty set. */
  ghost function Choose<T>(s: set<T>): (x: T)
    requires s != {}
    ensures x in s
  {
    var x :| x in s; x
  }

  /** A key under which a stored value sits. */
  ghost function KeyOf<K, V>(m: map<K, V>, v: V): (k: K)
    requires v in m.Values
    ensures k in m && m[k] == v
  {
    var k :| k in m && m[k] == v; k
  }

  /** Takes some element of a non-empty set. */
  method Pick<T>(s: set<T>) returns (x: T)
    requires s != {}
    ensures x in s
  {
    x :| x in s;
  }

  /** `@Insert(onConflict = REPLACE)`: the new state and the row id returned. */
  function Insert(t: TableState, p: ContainerPresetEntity): (TableState, int) {
    if p.id == AutoId then
      (TableState(t.rows[t.nextId := p.(id := t.nextId)], t.nextId + 1), t.nextId)
    else
      (TableState(t.rows[p.id := p], Max(t.nextId, p.id + 1)), p.id)
  }

  /** `insertPresets`: each preset inserted in list order. */
  function InsertAll(t: TableState, ps: seq<ContainerPresetEntity>): TableState
    decreases |ps|
  {
    if ps == [] then t else InsertAll(Insert(t, ps[0]).0, ps[1..])
  }

  /** `@Update`: overwrites the row with the same id; no such row, no change. */
  function Update(t: TableState, p: ContainerPresetEntity): TableState {
    if p.id in t.rows then t.(rows := t.rows[p.id := p]) else t
  }

  /** `DELETE ... WHERE id = :id`. */
  function DeleteById(t: TableState, id: int): TableState {
    t.(rows := t.rows - {id})
  }

  /** `DELETE FROM container_presets`: the id counter is kept. */
  function DeleteAll(t: TableState): TableState {
    t.(rows := map[])
  }

  /** `getPresetById`. */
  function Lookup(t: TableState, id: int): Option<ContainerPresetEntity> {
    if id in t.rows then Some(t.rows[id]) else None
  }

  /** `COALESCE(MAX(display_order), 0)`. */
  ghost function MaxDisplayOrder(rows: map<int, ContainerPresetEntity>): (m: int)
    ensures rows == map[] ==> m == 0
    ensures rows != map[] ==> (exists id :: id in rows && rows[id].displayOrder == m)
                              && forall id :: id in rows ==> rows[id].displayOrder <= m
    decreases |rows|
  {
    if rows.Keys == {} then 0
    else
      var k := Choose(rows.Keys);
      var rest := rows - {k};
      if rest.Keys == {} then
        assert rows.Keys == {k};
        rows[k].displayOrder
      else
        assert forall id :: id in rows ==> id == k || id in rest;
        Max(rows[k].displayOrder, MaxDisplayOrder(rest))
  }

  /** Two numbers that both satisfy the "largest display order" contract are equal. */
  lemma MaxDisplayOrderUnique(rows: map<int, ContainerPresetEntity>, m: int)
    requires rows == map[] ==> m == 0
    requires rows != map[] ==> (exists id :: id in rows && rows[id].displayOrder == m)
                               && forall id :: id in rows ==> rows[id].displayOrder <= m
    ensures m == MaxDisplayOrder(rows)
  {
  }

  /** The rows in ascending volume order, each exactly once. */
  ghost predicate ListsByVolume(t: TableState, r: seq<ContainerPresetEntity>) {
    && (forall i, j :: 0 <= i < j < |r| ==> r[i].volume <= r[j].volume)
    && (forall i, j :: 0 <= i < j < |r| ==> r[i].id != r[j].id)
    && (forall e :: e in r <==> e in t.rows.Values)
    && |r| == |t.rows|
  }

  predicate SortedByVolume(r: seq<ContainerPresetEntity>) {
    forall i, j :: 0 <= i < j < |r| ==> r[i].volume <= r[j].volume
  }

  /** One step of ordering by volume: `e` placed before the first row with a larger volume. */
  function InsertByVolume(r: seq<ContainerPresetEntity>, e: ContainerPresetEntity): (r': seq<ContainerPresetEntity>)
    requires SortedByVolume(r)
    ensures SortedByVolume(r')
    ensures multiset(r') == multiset(r) + multiset{e}
    ensures |r'| == |r| + 1
    ensures forall x :: x in r' <==> x in r || x == e
  {
    if r == [] || e.volume <= r[0].volume then
      PrependSorted(e, r);
      [e] + r
    else
      var tail := InsertByVolume(r[1..], e);
      assert r == [r[0]] + r[1..];
      assert forall x :: x in tail ==> r[0].volume <= x.volume by {
        forall x | x in tail ensures r[0].volume <= x.volume {
          assert x in r[1..] || x == e;
        }
      }
      PrependSorted(r[0], tail);
      [r[0]] + tail
  }

  /** Putting a row in front of a sorted list whose rows are at least as
      large keeps it sorted. */
  lemma PrependSorted(e: ContainerPresetEntity, r: seq<ContainerPresetEntity>)
    requires SortedByVolume(r)
    requires forall x :: x in r ==> e.volume <= x.volume
    ensures SortedByVolume([e] + r)
  {
    var r' := [e] + r;
    forall i, j | 0 <= i < j < |r'| ensures r'[i].volume <= r'[j].volume {
      assert r'[j] == r[j - 1] && r[j - 1] in r;
      if i > 0 {
        assert r'[i] == r[i - 1];
      }
    }
  }

  /** The ids a list of rows carries. */
  ghost function Ids(r: seq<ContainerPresetEntity>): set<int> {
    set e | e in r :: e.id
  }

  /** `r` lists, ordered by volume, exactly the stored rows whose ids are in `done`, each once. */
  ghost predicate ListedSoFar(rows: map<int, ContainerPresetEntity>, r: seq<ContainerPresetEntity>, done: set<int>) {
    && SortedByVolume(r)
    && (forall e :: e in r ==> e.id in rows && rows[e.id] == e)
    && Ids(r) == done
    && |r| == |done|
  }

  lemma ListedStep(rows: map<int, ContainerPresetEntity>, r: seq<ContainerPresetEntity>, done: set<int>, k: int)
    requires ListedSoFar(rows, r, done) && k in rows && k !in done && rows[k].id == k
    ensures ListedSoFar(rows, InsertByVolume(r, rows[k]), done + {k})
  {
    var e := rows[k];
    var r' := InsertByVolume(r, e);
    assert Ids(r') == Ids(r) + {k} by {
      forall id ensures id in Ids(r') <==> id in Ids(r) + {k} {
        if id in Ids(r') {
          var x :| x in r' && x.id == id;
        }
        if id in Ids(r) {
          var x :| x in r && x.id == id;
          assert x in r';
        }
        if id == k {
          assert e in r';
        }
      }
    }
  }

  /** Places the row stored under `k` into the listing so far. */
  method ListRow(rows: map<int, ContainerPresetEntity>, r: seq<ContainerPresetEntity>, ghost done: set<int>, k: int)
    returns (r': seq<ContainerPresetEntity>)
    requires ListedSoFar(rows, r, done) && k in rows && k !in done && rows[k].id == k
    ensures ListedSoFar(rows, r', done + {k})
  {
    ListedStep(rows, r, done, k);
    r' := InsertByVolume(r, rows[k]);
  }

  /** Lists every stored row, placing them one at a time in volume order. */
  method ListByVolume(rows: map<int, ContainerPresetEntity>) returns (r: seq<ContainerPresetEntity>)
    requires forall id :: id in rows ==> rows[id].id == id
    ensures ListedSoFar(rows, r, rows.Keys)
  {
    var pending := rows.Keys;
    ghost var done: set<int> := {};
    r := [];
    ListedNothing(rows);
    while pending != {}
      invariant done !! pending && done + pending == rows.Keys
      invariant ListedSoFar(rows, r, done)
      decreases |pending|
    {
      var k := Pick(pending);
      r := ListRow(rows, r, done, k);
      MoveKey(done, pending, k);
      done := done + {k};
      pending := pending - {k};
    }
  }

  lemma ListedNothing(rows: map<int, ContainerPresetEntity>)
    ensures ListedSoFar(rows, [], {})
  {
    assert Ids([]) == {};
  }

  /** Moving a key from the pending set to the done set keeps them a partition. */
  lemma MoveKey(done: set<int>, pending: set<int>, k: int)
    requires done !! pending && k in pending
    ensures (done + {k}) !! (pending - {k}) && (done + {k}) + (pending - {k}) == done + pending
    ensures |pending - {k}| < |pending|
  {
  }

  /** A list with as many rows as distinct ids has no id twice. */
  lemma DistinctIds(r: seq<ContainerPresetEntity>)
    requires |Ids(r)| == |r|
    ensures forall i, j :: 0 <= i < j < |r| ==> r[i].id != r[j].id
    decreases |r|
  {
    if r != [] {
      var tail := r[1..];
      assert r == [r[0]] + tail;
      assert Ids(r) == {r[0].id} + Ids(tail);
      if r[0].id in Ids(tail) {
        assert Ids(r) == Ids(tail);
        IdsBound(tail);
        assert false;
      }
      assert |Ids(tail)| == |tail|;
      DistinctIds(tail);
      forall j | 0 < j < |r| ensures r[0].id != r[j].id {
        assert r[j] == tail[j - 1];
        assert r[j].id in Ids(tail);
      }
    }
  }

  lemma IdsBound(r: seq<ContainerPresetEntity>)
    ensures |Ids(r)| <= |r|
    decreases |r|
  {
    if r != [] {
      var tail := r[1..];
      assert r == [r[0]] + tail;
      assert Ids(r) == {r[0].id} + Ids(tail);
      IdsBound(tail);
    }
  }

  lemma ListedAll(rows: map<int, ContainerPresetEntity>, nextId: int, r: seq<ContainerPresetEntity>)
    requires ListedSoFar(rows, r, rows.Keys)
    ensures ListsByVolume(TableState(rows, nextId), r)
  {
    assert |rows.Keys| == |rows|;
    DistinctIds(r);
    forall e | e in rows.Values ensures e in r {
      var k :| k in rows && rows[k] == e;
      assert k in Ids(r);
      var x :| x in r && x.id == k;
    }
  }

  /** Every row a query lists is stored under its own id. */
  lemma ListedRowsAreStored(t: TableState, r: seq<ContainerPresetEntity>)
    requires WellFormed(t) && ListsByVolume(t, r)
    ensures forall e :: e in r ==> e.id in t.rows && t.rows[e.id] == e
  {
    forall e | e in r ensures e.id in t.rows && t.rows[e.id] == e {
      var k := KeyOf(t.rows, e);
    }
  }

  /** Inserting a preset with the "unsaved" id adds exactly one row under a
      never-used id, leaves every existing row as it was, and keeps the table well formed. */
  lemma InsertNewAddsOneRow(t: TableState, p: ContainerPresetEntity)
    requires WellFormed(t) && p.id == AutoId
    ensures WellFormed(Insert(t, p).0)
    ensures Insert(t, p).1 == t.nextId && t.nextId !in t.rows
    ensures Insert(t, p).0.nextId == t.nextId + 1
    ensures Insert(t, p).0.rows == t.rows[t.nextId := p.(id := t.nextId)]
    ensures |Insert(t, p).0.rows| == |t.rows| + 1
  {
  }

  /** Inserting a preset whose id is already stored replaces that row (REPLACE):
      the row count stays the same and every other row is untouched. */
  lemma InsertExistingReplaces(t: TableState, p: ContainerPresetEntity)
    requires WellFormed(t) && p.id in t.rows
    ensures var (t', id) := Insert(t, p);
            && WellFormed(t')
            && id == p.id && t'.rows[id] == p
            && |t'.rows| == |t.rows|
            && (forall k :: k in t.rows && k != p.id ==> k in t'.rows && t'.rows[k] == t.rows[k])
            && t'.rows.Keys == t.rows.Keys
  {
    var (t', id) := Insert(t, p);
    assert t'.rows.Keys == t.rows.Keys;
  }

  /** Inserting a batch of unsaved presets uses consecutive fresh ids: the
      table gains exactly one row per preset and keeps every row it had. */
  lemma {:induction false} InsertAllNewKeys(t: TableState, ps: seq<ContainerPresetEntity>)
    requires WellFormed(t)
    requires forall j :: 0 <= j < |ps| ==> ps[j].id == AutoId
    ensures WellFormed(InsertAll(t, ps))
    ensures InsertAll(t, ps).nextId == t.nextId + |ps|
    ensures |InsertAll(t, ps).rows| == |t.rows| + |ps|
    ensures forall k :: k in InsertAll(t, ps).rows <==> k in t.rows || t.nextId <= k < t.nextId + |ps|
    decreases |ps|
  {
    if ps != [] {
      var t1 := Insert(t, ps[0]).0;
      InsertNewAddsOneRow(t, ps[0]);
      InsertAllNewKeys(t1, ps[1..]);
    }
  }

  /** Inserting unsaved presets leaves every row the table had as it was. */
  lemma {:induction false} InsertAllKeepsRows(t: TableState, ps: seq<ContainerPresetEntity>, k: int)
    requires WellFormed(t) && k in t.rows
    requires forall j :: 0 <= j < |ps| ==> ps[j].id == AutoId
    ensures k in InsertAll(t, ps).rows && InsertAll(t, ps).rows[k] == t.rows[k]
    decreases |ps|
  {
    if ps != [] {
      var t1 := Insert(t, ps[0]).0;
      InsertNewAddsOneRow(t, ps[0]);
      InsertAllKeepsRows(t1, ps[1..], k);
    }
  }

  /** ... and the rows it gains are the presets in list order, each under its new id. */
  lemma {:induction false} InsertAllNew(t: TableState, ps: seq<ContainerPresetEntity>, j: int)
    requires WellFormed(t) && 0 <= j < |ps|
    requires forall i :: 0 <= i < |ps| ==> ps[i].id == AutoId
    ensures t.nextId + j in InsertAll(t, ps).rows
    ensures InsertAll(t, ps).rows[t.nextId + j] == ps[j].(id := t.nextId + j)
    decreases |ps|
  {
    var t1 := Insert(t, ps[0]).0;
    InsertNewAddsOneRow(t, ps[0]);
    assert InsertAll(t, ps) == InsertAll(t1, ps[1..]);
    if j == 0 {
      InsertAllKeepsRows(t1, ps[1..], t.nextId);
    } else {
      assert ps[1..][j - 1] == ps[j];
      InsertAllNew(t1, ps[1..], j - 1);
    }
  }

  /** Updating overwrites only the row with the preset's id; an absent id changes nothing. */
  lemma UpdateTouchesOnlyItsRow(t: TableState, p: ContainerPresetEntity)
    requires WellFormed(t)
    ensures var t' := Update(t, p);
            && WellFormed(t')
            && t'.rows.Keys == t.rows.Keys && t'.nextId == t.nextId
            && (p.id in t.rows ==> t'.rows[p.id] == p)
            && (p.id !in t.rows ==> t' == t)
            && (forall k :: k in t.rows && k != p.id ==> t'.rows[k] == t.rows[k])
  {
  }

  /** Deleting by id removes that row only; an absent id is a no-op. */
  lemma DeleteRemovesOnlyItsRow(t: TableState, id: int)
    requires WellFormed(t)
    ensures var t' := DeleteById(t, id);
            && WellFormed(t')
            && t'.rows.Keys == t.rows.Keys - {id} && t'.nextId == t.nextId
            && (forall k :: k in t'.rows ==> t'.rows[k] == t.rows[k])
            && (id in t.rows ==> |t'.rows| == |t.rows| - 1)
            && (id !in t.rows ==> t' == t)
  {
    var t' := DeleteById(t, id);
    if id !in t.rows {
      assert t'.rows == t.rows;
    }
  }

  /** After deleting everything the count is 0, and ids already handed out
      stay used: the next generated id does not go back. */
  lemma DeleteAllEmptiesTable(t: TableState)
    requires WellFormed(t)
    ensures WellFormed(DeleteAll(t)) && |DeleteAll(t).rows| == 0 && DeleteAll(t).nextId == t.nextId
  {
  }

  /** The display-order index is not unique: a new row may share its
      display order with a stored one, and both stay in the table. */
  lemma DisplayOrderMayRepeat(t: TableState, p: ContainerPresetEntity, k: int)
    requires WellFormed(t) && p.id == AutoId && k in t.rows && t.rows[k].displayOrder == p.displayOrder
    ensures var (t', id) := Insert(t, p);
            k in t'.rows && id in t'.rows && k != id
            && t'.rows[k].displayOrder == t'.rows[id].displayOrder
  {
    InsertNewAddsOneRow(t, p);
  }

  /** The entity constructor's default id makes an insert generate a fresh id. */
  lemma NewEntityGetsGeneratedId(t: TableState, name: string, volume: real, iconType: string, iconName: string)
    requires WellFormed(t)
    ensures var (t', id) := Insert(t, NewPresetEntity(name, volume, iconType, iconName));
            id == t.nextId && id !in t.rows && t'.rows[id].id == id
            && !t'.rows[id].isDefault && t'.rows[id].displayOrder == 0
  {
    InsertNewAddsOneRow(t, NewPresetEntity(name, volume, iconType, iconName));
  }

  /** The table held by the data-access object, updated in place. */
  class PresetTable {
    var rows: map<int, ContainerPresetEntity>
    var nextId: int

    function State(): TableState
      reads this
    {
      TableState(rows, nextId)
    }

    ghost predicate Valid()
      reads this
    {
      WellFormed(State())
    }

    /** A freshly created, empty table; generated ids start at 1. */
    constructor ()
      ensures Valid() && rows == map[] && nextId == 1
    {
      rows := map[];
      nextId := 1;
    }

    /** `getAllPresetsSync`: every row, ordered by volume ascending. */
    method GetAllPresetsSync() returns (r: seq<ContainerPresetEntity>)
      requires Valid()
      ensures ListsByVolume(State(), r)
    {
      r := ListByVolume(rows);
      ListedAll(rows, nextId, r);
    }

    /** `getPresetById`. */
    method GetPresetById(id: int) returns (r: Option<ContainerPresetEntity>)
      requires Valid()
      ensures r.Some? <==> id in rows
      ensures r.Some? ==> r.value == rows[id] && r.value.id == id
    {
      r := if id in rows then Some(rows[id]) else None;
    }

    /** `insertPreset`: returns the row id of the inserted row. */
    method InsertPreset(p: ContainerPresetEntity) returns (rowId: int)
      requires Valid()
      modifies this
      ensures Valid()
      ensures (State(), rowId) == Insert(old(State()), p)
    {
      if p.id == AutoId {
        rowId := nextId;
        rows := rows[rowId := p.(id := rowId)];
        nextId := nextId + 1;
      } else {
        rowId := p.id;
        rows := rows[p.id := p];
        nextId := Max(nextId, p.id + 1);
      }
    }

    /** `insertPresets`: inserts the list in order. */
    method InsertPresets(ps: seq<ContainerPresetEntity>)
      requires Valid()
      modifies this
      ensures Valid()
      ensures State() == InsertAll(old(State()), ps)
    {
      var i := 0;
      while i < |ps|
        invariant 0 <= i <= |ps|
        invariant Valid()
        invariant InsertAll(State(), ps[i..]) == InsertAll(old(State()), ps)
      {
        assert ps[i..] == [ps[i]] + ps[i + 1..];
        var _ := InsertPreset(ps[i]);
        i := i + 1;
      }
    }

    /** `updatePreset`. */
    method UpdatePreset(p: ContainerPresetEntity)
      requires Valid()
      modifies this
      ensures Valid()
      ensures State() == Update(old(State()), p)
    {
      if p.id in rows {
        rows := rows[p.id := p];
      }
    }

    /** `deletePresetById`. */
    method DeletePresetById(id: int)
      requires Valid()
      modifies this
      ensures Valid()
      ensures State() == DeleteById(old(State()), id)
    {
      rows := rows - {id};
    }

    /** `deleteAllPresets`. */
    method DeleteAllPresets()
      requires Valid()
      modifies this
      ensures Valid()
      ensures State() == DeleteAll(old(State()))
    {
      rows := map[];
    }

    /** `getPresetCount`. */
    method GetPresetCount() returns (n: int)
      ensures n == |rows|
    {
      n := |rows|;
    }

    /** `getMaxDisplayOrder`: the largest display order, or 0 for an empty table. */
    method GetMaxDisplayOrder() returns (m: int)
      ensures rows == map[] ==> m == 0
      ensures rows != map[] ==> (exists id :: id in rows && rows[id].displayOrder == m)
                                && forall id :: id in rows ==> rows[id].displayOrder <= m
      ensures m == MaxDisplayOrder(rows)
    {
      var pending := rows.Keys;
      var seen := false;
      m := 0;
      while pending != {}
        invariant pending <= rows.Keys
        invariant seen <==> pending != rows.Keys
        invariant !seen ==> m == 0
        invariant seen ==> (exists id :: id in rows.Keys - pending && rows[id].displayOrder == m)
        invariant forall id :: id in rows.Keys - pending ==> rows[id].displayOrder <= m
        decreases pending
      {
        var k := Pick(pending);
        if !seen || rows[k].displayOrder > m {
          m := rows[k].displayOrder;
        }
        seen := true;
        pending := pending - {k};
      }
      assert pending == {};
      if rows != map[] {
        assert rows.Keys != {};
        var k := Choose(rows.Keys);
        assert k in rows.Keys - pending;
      }
      MaxDisplayOrderUnique(rows, m);
    }
  }
}
