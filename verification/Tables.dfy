/** Database tables as the backup import sees them: find a row by its key, update it or create
    it (packages/api/src/routes/backup.ts, the three loops of the import transaction). */
module Tables {
  import opened Common

  /** A row: its id, the columns it is looked up by, and its other columns. */
  datatype Row<K, F, V> = Row(id: nat, key: K, fields: map<F, V>)

  /** What an import wants stored under a key; `defaults` matter only if the row is created. */
  datatype Entry<K, F, V> = Entry(key: K, defaults: map<F, V>, data: map<F, V>)

  datatype Pass<K, F, V> = Pass(rows: seq<Row<K, F, V>>, nextId: nat, ids: seq<nat>, created: nat)

  // ---- Searching and selecting ----

  /** The first position that p accepts, or |xs|. */
  function First<A>(xs: seq<A>, p: A -> bool): (i: nat)
    ensures i <= |xs|
    ensures i < |xs| ==> p(xs[i])
    ensures forall j :: 0 <= j < i ==> !p(xs[j])
  {
    if xs == [] then 0
    else if First(xs[..|xs| - 1], p) < |xs| - 1 then First(xs[..|xs| - 1], p)
    else if p(xs[|xs| - 1]) then |xs| - 1
    else |xs|
  }

  /** The position of the first row with this key, or |rows|. */
  function Find<K(==), F, V>(rows: seq<Row<K, F, V>>, key: K): (i: nat)
    ensures i <= |rows|
    ensures i < |rows| ==> rows[i].key == key
    ensures forall j :: 0 <= j < i ==> rows[j].key != key
  {
    First(rows, (r: Row<K, F, V>) => r.key == key)
  }

  /** The position of the row with this id, or |rows|. */
  function Position<K, F, V>(rows: seq<Row<K, F, V>>, id: nat): (i: nat)
    ensures i <= |rows|
    ensures i < |rows| ==> rows[i].id == id
    ensures forall j :: 0 <= j < i ==> rows[j].id != id
  {
    First(rows, (r: Row<K, F, V>) => r.id == id)
  }

  /** Those that p accepts, in order. */
  function Select<A>(xs: seq<A>, p: A -> bool): (r: seq<A>)
    ensures forall i :: 0 <= i < |r| ==> p(r[i])
  {
    if xs == [] then []
    else Select(xs[..|xs| - 1], p) + if p(xs[|xs| - 1]) then [xs[|xs| - 1]] else []
  }

  lemma {:induction false} SelectConcat<A>(a: seq<A>, b: seq<A>, p: A -> bool)
    ensures Select(a + b, p) == Select(a, p) + Select(b, p)
  {
    if b == [] {
      assert a + b == a;
    } else {
      SelectConcat(a, b[..|b| - 1], p);
      assert (a + b)[..|a + b| - 1] == a + b[..|b| - 1];
    }
  }

  lemma {:induction false} SelectAll<A>(xs: seq<A>, p: A -> bool)
    requires forall i :: 0 <= i < |xs| ==> p(xs[i])
    ensures Select(xs, p) == xs
  {
    if xs != [] { SelectAll(xs[..|xs| - 1], p); }
  }

  lemma {:induction false} SelectNone<A>(xs: seq<A>, p: A -> bool)
    requires forall i :: 0 <= i < |xs| ==> !p(xs[i])
    ensures Select(xs, p) == []
  {
    if xs != [] { SelectNone(xs[..|xs| - 1], p); }
  }

  // ---- One pass over a table ----

  function Upserted<K(==), F, V>(p: Pass<K, F, V>, e: Entry<K, F, V>): Pass<K, F, V> {
    var i := Find(p.rows, e.key);
    if i < |p.rows| then
      var r := p.rows[i];
      Pass(p.rows[i := r.(fields := r.fields + e.data)], p.nextId, p.ids + [r.id], p.created)
    else
      Pass(p.rows + [Row(p.nextId, e.key, e.defaults + e.data)], p.nextId + 1, p.ids + [p.nextId], p.created + 1)
  }

  function UpsertAll<K(==), F, V>(rows: seq<Row<K, F, V>>, nextId: nat, es: seq<Entry<K, F, V>>): Pass<K, F, V> {
    if es == [] then Pass(rows, nextId, [], 0)
    else Upserted(UpsertAll(rows, nextId, es[..|es| - 1]), es[|es| - 1])
  }

  method Upsert<K(==), F, V>(rows: seq<Row<K, F, V>>, nextId: nat, es: seq<Entry<K, F, V>>) returns (p: Pass<K, F, V>)
    ensures p == UpsertAll(rows, nextId, es)
  {
    var table, next, ids, created := rows, nextId, [], 0;
    for n := 0 to |es|
      invariant Pass(table, next, ids, created) == UpsertAll(rows, nextId, es[..n])
    {
      assert es[..n + 1][..n] == es[..n];
      var i := Find(table, es[n].key);
      if i < |table| {
        table := table[i := table[i].(fields := table[i].fields + es[n].data)];
        ids := ids + [table[i].id];
      } else {
        table := table + [Row(next, es[n].key, es[n].defaults + es[n].data)];
        ids, created, next := ids + [next], created + 1, next + 1;
      }
    }
    assert es[..|es|] == es;
    p := Pass(table, next, ids, created);
  }

  // ---- What a pass leaves unchanged ----

  lemma FindIs<K, F, V>(rows: seq<Row<K, F, V>>, key: K, i: nat)
    requires i < |rows| && rows[i].key == key && forall j :: 0 <= j < i ==> rows[j].key != key
    ensures Find(rows, key) == i
  {
  }

  lemma {:induction false} PassShape<K, F, V>(rows: seq<Row<K, F, V>>, nextId: nat, es: seq<Entry<K, F, V>>)
    ensures var p := UpsertAll(rows, nextId, es);
            && |p.ids| == |es| && p.created <= |es|
            && p.nextId == nextId + p.created && |p.rows| == |rows| + p.created
            && (forall i :: 0 <= i < |rows| ==> p.rows[i].id == rows[i].id && p.rows[i].key == rows[i].key)
            && (forall i :: |rows| <= i < |p.rows| ==> p.rows[i].id == nextId + (i - |rows|))
  {
    if es != [] { PassShape(rows, nextId, es[..|es| - 1]); }
  }

  /** Every imported entry ends up in the first row with its key, and its id is returned. */
  lemma {:induction false} EntriesAreFound<K, F, V>(rows: seq<Row<K, F, V>>, nextId: nat, es: seq<Entry<K, F, V>>)
    ensures var p := UpsertAll(rows, nextId, es);
            && |p.ids| == |es|
            && forall n :: 0 <= n < |es| ==>
                 var i := Find(p.rows, es[n].key); i < |p.rows| && p.rows[i].id == p.ids[n]
  {
    hide Find;
    if es != [] {
      var earlier, e := es[..|es| - 1], es[|es| - 1];
      EntriesAreFound(rows, nextId, earlier);
      var p, q := UpsertAll(rows, nextId, earlier), UpsertAll(rows, nextId, es);
      forall n | 0 <= n < |es|
        ensures var i := Find(q.rows, es[n].key); i < |q.rows| && q.rows[i].id == q.ids[n]
      {
        if n < |earlier| {
          assert es[n] == earlier[n];
          FindIs(q.rows, es[n].key, Find(p.rows, es[n].key));
        } else {
          FindIs(q.rows, e.key, Find(p.rows, e.key));
        }
      }
    }
  }

  // ---- The last import wins, and importing again changes nothing ----

  /** All the data the entries carry for one key, later entries overriding. */
  function Merged<K(==), F, V>(es: seq<Entry<K, F, V>>, key: K): map<F, V> {
    if es == [] then map[]
    else
      var before, e := Merged(es[..|es| - 1], key), es[|es| - 1];
      if e.key == key then before + e.data else before
  }

  ghost predicate Holds<F, V>(fields: map<F, V>, data: map<F, V>) {
    forall f :: f in data ==> f in fields && fields[f] == data[f]
  }

  /** An entry that no later one shares its key with is held whole. */
  lemma LastEntryIsHeld<K, F, V>(rows: seq<Row<K, F, V>>, nextId: nat, es: seq<Entry<K, F, V>>, n: nat)
    requires n < |es| && forall m :: n < m < |es| ==> es[m].key != es[n].key
    ensures var p := UpsertAll(rows, nextId, es); var i := Find(p.rows, es[n].key);
            i < |p.rows| && Holds(p.rows[i].fields, es[n].data)
  {
    hide UpsertAll, Find;
    EntriesAreFound(rows, nextId, es);
    LastImportWins(rows, nextId, es, es[n].key);
    LastIsMerged(es, n);
  }

  lemma {:induction false} LastIsMerged<K, F, V>(es: seq<Entry<K, F, V>>, n: nat)
    requires n < |es| && forall m :: n < m < |es| ==> es[m].key != es[n].key
    ensures Holds(Merged(es, es[n].key), es[n].data)
  {
    if n < |es| - 1 { LastIsMerged(es[..|es| - 1], n); }
  }

  /** The first row of every key holds exactly what was imported for it last. */
  lemma {:induction false} LastImportWins<K, F, V>(rows: seq<Row<K, F, V>>, nextId: nat, es: seq<Entry<K, F, V>>, key: K)
    ensures var p := UpsertAll(rows, nextId, es); var i := Find(p.rows, key);
            if i < |p.rows| then Holds(p.rows[i].fields, Merged(es, key)) else Merged(es, key) == map[]
  {
    if es != [] {
      var earlier, e := es[..|es| - 1], es[|es| - 1];
      LastImportWins(rows, nextId, earlier, key);
      var p, q := UpsertAll(rows, nextId, earlier), UpsertAll(rows, nextId, es);
      if Find(p.rows, key) < |p.rows| {
        FindIs(q.rows, key, Find(p.rows, key));
      } else if e.key == key {
        FindIs(q.rows, key, |p.rows|);
      }
    }
  }

  /** A row after a pass that creates nothing: the first row of a key takes all its data. */
  function PatchedRow<K(==), F, V>(rows: seq<Row<K, F, V>>, es: seq<Entry<K, F, V>>, i: nat): Row<K, F, V>
    requires i < |rows|
  {
    if Find(rows, rows[i].key) == i then rows[i].(fields := rows[i].fields + Merged(es, rows[i].key)) else rows[i]
  }

  lemma PatchOneMore<K, F, V>(rows: seq<Row<K, F, V>>, p: Pass<K, F, V>, es: seq<Entry<K, F, V>>)
    requires es != [] && |p.rows| == |rows|
    requires forall i :: 0 <= i < |rows| ==> p.rows[i] == PatchedRow(rows, es[..|es| - 1], i)
    requires Find(rows, es[|es| - 1].key) < |rows|
    ensures var q, e := Upserted(p, es[|es| - 1]), es[|es| - 1];
            && q.created == p.created && q.nextId == p.nextId && |q.rows| == |rows|
            && q.ids == p.ids + [rows[Find(rows, e.key)].id]
            && forall i :: 0 <= i < |rows| ==> q.rows[i] == PatchedRow(rows, es, i)
  {
    hide Find;
    var e := es[|es| - 1];
    var first := Find(rows, e.key);
    FindIs(p.rows, e.key, first);
    forall i | 0 <= i < |rows| ensures Upserted(p, e).rows[i] == PatchedRow(rows, es, i) {
      if i == first {
        assert (rows[i].fields + Merged(es[..|es| - 1], e.key)) + e.data
               == rows[i].fields + (Merged(es[..|es| - 1], e.key) + e.data);
      }
    }
  }

  /** A second pass over a table in which every key is already present: only data changes. */
  lemma {:induction false} SecondPass<K, F, V>(rows: seq<Row<K, F, V>>, nextId: nat, es: seq<Entry<K, F, V>>)
    requires forall n :: 0 <= n < |es| ==> Find(rows, es[n].key) < |rows|
    ensures var p := UpsertAll(rows, nextId, es);
            && p.created == 0 && p.nextId == nextId && |p.rows| == |rows| && |p.ids| == |es|
            && (forall i :: 0 <= i < |rows| ==> p.rows[i] == PatchedRow(rows, es, i))
            && (forall n :: 0 <= n < |es| ==> p.ids[n] == rows[Find(rows, es[n].key)].id)
  {
    hide Find, Upserted;
    if es != [] {
      var earlier := es[..|es| - 1];
      SecondPass(rows, nextId, earlier);
      PatchOneMore(rows, UpsertAll(rows, nextId, earlier), es);
    } else {
      forall i | 0 <= i < |rows| ensures rows[i] == PatchedRow(rows, es, i) {
        assert rows[i].fields + map[] == rows[i].fields;
      }
    }
  }

  /** Importing the same entries twice: nothing is created, the same ids come back, and every
      row is as the first import left it. */
  lemma ImportTwice<K, F, V>(rows: seq<Row<K, F, V>>, nextId: nat, es: seq<Entry<K, F, V>>)
    ensures var once := UpsertAll(rows, nextId, es);
            UpsertAll(once.rows, once.nextId, es) == Pass(once.rows, once.nextId, once.ids, 0)
  {
    var once := UpsertAll(rows, nextId, es);
    EntriesAreFound(rows, nextId, es);
    SecondPass(once.rows, once.nextId, es);
    var twice := UpsertAll(once.rows, once.nextId, es);
    forall i | 0 <= i < |once.rows| ensures twice.rows[i] == once.rows[i] {
      var key := once.rows[i].key;
      LastImportWins(rows, nextId, es, key);
      assert Find(once.rows, key) == i ==> once.rows[i].fields + Merged(es, key) == once.rows[i].fields;
    }
    assert twice.rows == once.rows && twice.ids == once.ids;
  }

  // ---- Reading the fields through a function (decryption) ----

  function ReadFields<F, V, W>(fields: map<F, V>, read: V -> W): map<F, W> {
    map f | f in fields :: read(fields[f])
  }

  function ReadRow<K, F, V, W>(r: Row<K, F, V>, read: V -> W): Row<K, F, W> {
    Row(r.id, r.key, ReadFields(r.fields, read))
  }

  function ReadRows<K, F, V, W>(rows: seq<Row<K, F, V>>, read: V -> W): seq<Row<K, F, W>> {
    seq(|rows|, i requires 0 <= i < |rows| => ReadRow(rows[i], read))
  }

  function ReadEntry<K, F, V, W>(e: Entry<K, F, V>, read: V -> W): Entry<K, F, W> {
    Entry(e.key, ReadFields(e.defaults, read), ReadFields(e.data, read))
  }

  function ReadEntries<K, F, V, W>(es: seq<Entry<K, F, V>>, read: V -> W): seq<Entry<K, F, W>> {
    seq(|es|, i requires 0 <= i < |es| => ReadEntry(es[i], read))
  }

  lemma ReadUnion<F, V, W>(a: map<F, V>, b: map<F, V>, read: V -> W)
    ensures ReadFields(a + b, read) == ReadFields(a, read) + ReadFields(b, read)
  {
  }

  /** Importing and reading commute: what is stored reads as if the readings had been imported. */
  lemma {:induction false} ReadingCommutes<K, F, V, W>(rows: seq<Row<K, F, V>>, nextId: nat, es: seq<Entry<K, F, V>>, read: V -> W)
    ensures var p, q := UpsertAll(rows, nextId, es), UpsertAll(ReadRows(rows, read), nextId, ReadEntries(es, read));
            q == Pass(ReadRows(p.rows, read), p.nextId, p.ids, p.created)
  {
    if es != [] {
      var earlier, e := es[..|es| - 1], es[|es| - 1];
      ReadingCommutes(rows, nextId, earlier, read);
      assert ReadEntries(es, read)[..|es| - 1] == ReadEntries(earlier, read);
      var p := UpsertAll(rows, nextId, earlier);
      UpsertReads(p, e, read);
    }
  }

  lemma UpsertReads<K, F, V, W>(p: Pass<K, F, V>, e: Entry<K, F, V>, read: V -> W)
    ensures var p' := Upserted(p, e);
            Upserted(Pass(ReadRows(p.rows, read), p.nextId, p.ids, p.created), ReadEntry(e, read))
            == Pass(ReadRows(p'.rows, read), p'.nextId, p'.ids, p'.created)
  {
    var i, rows := Find(p.rows, e.key), ReadRows(p.rows, read);
    var q := Upserted(p, e);
    if i < |p.rows| {
      FindIs(rows, e.key, i);
      ReadUnion(p.rows[i].fields, e.data, read);
      assert ReadRows(q.rows, read) == rows[i := ReadRow(q.rows[i], read)];
    } else {
      assert Find(rows, e.key) == |rows|;
      ReadUnion(e.defaults, e.data, read);
      assert ReadRows(q.rows, read) == rows + [ReadRow(q.rows[|p.rows|], read)];
    }
  }

  // ---- Importing entries that are all new ----

  function NewRows<K, F, V>(nextId: nat, es: seq<Entry<K, F, V>>): seq<Row<K, F, V>> {
    seq(|es|, i requires 0 <= i < |es| => Row(nextId + i, es[i].key, es[i].defaults + es[i].data))
  }

  /** Distinct keys, none of them in the table: one new row each, in order, with consecutive ids. */
  lemma {:induction false} AllNew<K, F, V>(rows: seq<Row<K, F, V>>, nextId: nat, es: seq<Entry<K, F, V>>)
    requires forall i, n :: 0 <= i < |rows| && 0 <= n < |es| ==> rows[i].key != es[n].key
    requires forall m, n :: 0 <= m < n < |es| ==> es[m].key != es[n].key
    ensures UpsertAll(rows, nextId, es)
            == Pass(rows + NewRows(nextId, es), nextId + |es|, seq(|es|, i => nextId + i), |es|)
  {
    hide Find;
    if es == [] {
      assert rows + NewRows(nextId, es) == rows;
    } else {
      var earlier, e := es[..|es| - 1], es[|es| - 1];
      AllNew(rows, nextId, earlier);
      var p := UpsertAll(rows, nextId, earlier);
      forall i | 0 <= i < |p.rows| ensures p.rows[i].key != e.key {
        if i >= |rows| { assert p.rows[i].key == es[i - |rows|].key; }
      }
      assert Find(p.rows, e.key) == |p.rows|;
      assert NewRows(nextId, es) == NewRows(nextId, earlier) + [Row(nextId + |earlier|, e.key, e.defaults + e.data)];
      assert seq(|es|, i => nextId + i) == seq(|earlier|, i => nextId + i) + [nextId + |earlier|];
    }
  }
}
