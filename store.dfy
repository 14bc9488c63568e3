/**
 * The document-store semantics the Firebase services rely on. A collection is a map from
 * document ids to documents; ids are numbers handed out in creation order, and a query with
 * no explicit order returns documents in ascending id order (Firestore's order by document
 * name). A query filters with a conjunction of equalities, optionally orders by one numeric
 * field (documents without that field drop out; ties go by id in the same direction) and
 * optionally keeps a prefix.
 */
module Store {
  import opened Wrappers

  /** A document returned by a query, together with its id. */
  datatype Row<T> = Row(id: nat, doc: T)

  /** A Firestore `GeoPoint`. */
  datatype GeoPoint = GeoPoint(latitude: real, longitude: real)

  /** The store's error for an `updateDoc` of a document that does not exist. */
  const NoDocumentToUpdate := "No document to update"

  /** The direction of an `orderBy`; `'desc'` is what every service defaults to. */
  datatype Direction = Asc | Desc

  /** Ids strictly increase along the sequence. */
  predicate Ascending<T(==,!new)>(rows: seq<Row<T>>) {
    forall i, j :: 0 <= i < j < |rows| ==> rows[i].id < rows[j].id
  }

  /** Every document of `docs` whose id is below `bound`, in ascending id order. */
  function Scan<T(==,!new)>(docs: map<nat, T>, bound: nat): (r: seq<Row<T>>)
    ensures forall row :: row in r <==> row.id < bound && row.id in docs && docs[row.id] == row.doc
    ensures Ascending(r)
    ensures forall row :: row in r ==> row.id < bound
  {
    if bound == 0 then []
    else
      var prefix := Scan(docs, bound - 1);
      if bound - 1 in docs then prefix + [Row(bound - 1, docs[bound - 1])] else prefix
  }

  /** The rows whose document satisfies `p`, in their original order. */
  function Where<T(==,!new)>(rows: seq<Row<T>>, p: T -> bool): (r: seq<Row<T>>)
    ensures forall row :: row in r <==> row in rows && p(row.doc)
    ensures |r| <= |rows|
  {
    if rows == [] then []
    else if p(rows[0].doc) then [rows[0]] + Where(rows[1..], p)
    else Where(rows[1..], p)
  }

  /** Filtering keeps ids ascending. */
  lemma {:induction false} WhereAscending<T(!new)>(rows: seq<Row<T>>, p: T -> bool)
    requires Ascending(rows)
    ensures Ascending(Where(rows, p))
  {
    if rows != [] {
      WhereAscending(rows[1..], p);
      var rest := Where(rows[1..], p);
      forall row | row in rest ensures rows[0].id < row.id {
        var k :| 1 <= k < |rows| && rows[k] == row;
      }
    }
  }

  /** In an ascending sequence, no earlier row carries the id of row `i`. */
  lemma AscendingNewId<T(!new)>(rows: seq<Row<T>>, i: nat)
    requires Ascending(rows) && i < |rows|
    ensures rows[i].id !in (set k | 0 <= k < i :: rows[k].id)
  {
    forall k | 0 <= k < i ensures rows[k].id != rows[i].id {
      assert rows[k].id < rows[i].id;
    }
  }

  /** In an ascending sequence, the first row is the one with the smallest id. */
  lemma AscendingFirst<T(!new)>(rows: seq<Row<T>>)
    requires Ascending(rows) && rows != []
    ensures forall row :: row in rows ==> rows[0].id <= row.id
  {
  }

  /** `a` may come before `b` when ordering by `key` in direction `dir`. */
  predicate Precedes<T(==,!new)>(a: Row<T>, b: Row<T>, key: T -> Option<int>, dir: Direction) {
    var ka, kb := key(a.doc).GetOr(0), key(b.doc).GetOr(0);
    match dir
    case Asc => ka < kb || (ka == kb && a.id <= b.id)
    case Desc => ka > kb || (ka == kb && a.id >= b.id)
  }

  predicate SortedBy<T(==,!new)>(rows: seq<Row<T>>, key: T -> Option<int>, dir: Direction) {
    forall i, j :: 0 <= i < j < |rows| ==> Precedes(rows[i], rows[j], key, dir)
  }

  /** Any two rows can be ordered one way or the other. */
  lemma PrecedesTotal<T(!new)>(a: Row<T>, b: Row<T>, key: T -> Option<int>, dir: Direction)
    ensures Precedes(a, b, key, dir) || Precedes(b, a, key, dir)
  {
  }

  lemma PrecedesTransitive<T(!new)>(a: Row<T>, b: Row<T>, c: Row<T>, key: T -> Option<int>, dir: Direction)
    requires Precedes(a, b, key, dir) && Precedes(b, c, key, dir)
    ensures Precedes(a, c, key, dir)
  {
  }

  function Insert<T(==,!new)>(x: Row<T>, rows: seq<Row<T>>, key: T -> Option<int>, dir: Direction): (r: seq<Row<T>>)
    ensures multiset(r) == multiset(rows) + multiset{x}
  {
    if rows == [] then [x]
    else if Precedes(x, rows[0], key, dir) then [x] + rows
    else
      assert rows == [rows[0]] + rows[1..];
      [rows[0]] + Insert(x, rows[1..], key, dir)
  }

  lemma {:induction false} InsertSorted<T(!new)>(x: Row<T>, rows: seq<Row<T>>, key: T -> Option<int>, dir: Direction)
    requires SortedBy(rows, key, dir)
    ensures SortedBy(Insert(x, rows, key, dir), key, dir)
  {
    if rows == [] {
    } else if Precedes(x, rows[0], key, dir) {
      var r := [x] + rows;
      forall i, j | 0 <= i < j < |r| ensures Precedes(r[i], r[j], key, dir) {
        if i == 0 && j > 1 {
          PrecedesTransitive(x, rows[0], rows[j - 1], key, dir);
        }
      }
    } else {
      var rest := Insert(x, rows[1..], key, dir);
      InsertSorted(x, rows[1..], key, dir);
      PrecedesTotal(x, rows[0], key, dir);
      var r := [rows[0]] + rest;
      forall j | 0 < j < |r| ensures Precedes(rows[0], r[j], key, dir) {
        var e := r[j];
        assert e in multiset(rows[1..]) + multiset{x} by {
          assert e == rest[j - 1];
        }
        if e != x {
          var k :| 0 <= k < |rows[1..]| && rows[1..][k] == e;
          assert rows[k + 1] == e;
        }
      }
    }
  }

  function Sort<T(==,!new)>(rows: seq<Row<T>>, key: T -> Option<int>, dir: Direction): (r: seq<Row<T>>)
    ensures multiset(r) == multiset(rows)
  {
    if rows == [] then []
    else
      assert rows == [rows[0]] + rows[1..];
      Insert(rows[0], Sort(rows[1..], key, dir), key, dir)
  }

  lemma {:induction false} SortSorted<T(!new)>(rows: seq<Row<T>>, key: T -> Option<int>, dir: Direction)
    ensures SortedBy(Sort(rows, key, dir), key, dir)
  {
    if rows != [] {
      SortSorted(rows[1..], key, dir);
      InsertSorted(rows[0], Sort(rows[1..], key, dir), key, dir);
    }
  }

  /** `orderBy(field, dir)`: the rows that carry the field, sorted by it. */
  function OrderBy<T(==,!new)>(rows: seq<Row<T>>, key: T -> Option<int>, dir: Direction): (r: seq<Row<T>>)
    ensures multiset(r) == multiset(Where(rows, (d: T) => key(d).Some?))
    ensures SortedBy(r, key, dir)
  {
    SortSorted(Where(rows, (d: T) => key(d).Some?), key, dir);
    Sort(Where(rows, (d: T) => key(d).Some?), key, dir)
  }

  /** `limit(n)`: at most the first `n` rows. */
  function Take<T(==,!new)>(rows: seq<Row<T>>, n: nat): (r: seq<Row<T>>)
    ensures |r| == if |rows| <= n then |rows| else n
    ensures r == rows[..|r|]
  {
    if |rows| <= n then rows else rows[..n]
  }

  /** A `limit` given as an optional number: 0 (falsy) means no limit at all. */
  function LimitIfTruthy<T(==,!new)>(rows: seq<Row<T>>, n: nat): (r: seq<Row<T>>)
    ensures n == 0 ==> r == rows
    ensures n > 0 ==> |r| <= n
    ensures |r| <= |rows| && r == rows[..|r|]
  {
    if n == 0 then rows else Take(rows, n)
  }

  /** `startAfter(c)`: `row` comes strictly after the cursor document `c` in the order. */
  predicate Beyond<T(==,!new)>(c: Row<T>, row: Row<T>, key: T -> Option<int>, dir: Direction) {
    Precedes(c, row, key, dir) && row.id != c.id
  }

  /** The rows past the cursor, if there is one. */
  function StartAfter<T(==,!new)>(rows: seq<Row<T>>, after: Option<Row<T>>, key: T -> Option<int>, dir: Direction): (r: seq<Row<T>>)
    ensures forall row :: row in r <==> row in rows && (after.Some? ==> Beyond(after.value, row, key, dir))
  {
    if rows == [] then []
    else
      var rest := StartAfter(rows[1..], after, key, dir);
      if after.None? || Beyond(after.value, rows[0], key, dir) then [rows[0]] + rest else rest
  }

  /**
   * A query: the rows satisfying the equality filters `p`, ordered by `key` in direction `dir`,
   * past the cursor `after` when one is given, cut to `lim` rows when `lim` is truthy.
   */
  function Query<T(==,!new)>(rows: seq<Row<T>>, p: T -> bool, key: T -> Option<int>, dir: Direction, after: Option<Row<T>>, lim: nat)
    : (r: seq<Row<T>>)
    ensures forall row :: row in r ==> row in rows && p(row.doc) && key(row.doc).Some?
    ensures after.Some? ==> forall row :: row in r ==> Beyond(after.value, row, key, dir)
    ensures SortedBy(r, key, dir)
    ensures lim > 0 ==> |r| <= lim
  {
    var candidates := StartAfter(Where(rows, p), after, key, dir);
    OrderedPrefix(candidates, key, dir, lim);
    LimitIfTruthy(OrderBy(candidates, key, dir), lim)
  }

  /** The first rows of an ordering are sorted and come from the rows that carry the field. */
  lemma OrderedPrefix<T(!new)>(candidates: seq<Row<T>>, key: T -> Option<int>, dir: Direction, lim: nat)
    ensures var r := LimitIfTruthy(OrderBy(candidates, key, dir), lim);
      && (forall row :: row in r ==> row in candidates && key(row.doc).Some?)
      && SortedBy(r, key, dir)
  {
    var ordered := OrderBy(candidates, key, dir);
    var both := Where(candidates, (d: T) => key(d).Some?);
    forall row | row in ordered ensures row in both {
      assert row in multiset(ordered);
    }
    var r := LimitIfTruthy(ordered, lim);
    forall i, j | 0 <= i < j < |r| ensures Precedes(r[i], r[j], key, dir) {
      assert r[i] == ordered[i] && r[j] == ordered[j];
    }
    forall row | row in r ensures row in ordered {
      var k :| 0 <= k < |r| && r[k] == row;
      assert ordered[k] == row;
    }
  }

  /**
   * What a query leaves out of the matching rows past the cursor: with no limit, or when fewer
   * than `lim` rows came back, nothing; otherwise only rows that every returned row precedes.
   */
  lemma QueryTopN<T(!new)>(rows: seq<Row<T>>, p: T -> bool, key: T -> Option<int>, dir: Direction, after: Option<Row<T>>, lim: nat, m: Row<T>)
    requires m in rows && p(m.doc) && key(m.doc).Some?
    requires after.Some? ==> Beyond(after.value, m, key, dir)
    requires m !in Query(rows, p, key, dir, after, lim)
    ensures lim > 0 && |Query(rows, p, key, dir, after, lim)| == lim
    ensures forall e :: e in Query(rows, p, key, dir, after, lim) ==> Precedes(e, m, key, dir)
  {
    var candidates := StartAfter(Where(rows, p), after, key, dir);
    var ordered := OrderBy(candidates, key, dir);
    var r := Query(rows, p, key, dir, after, lim);
    assert m in Where(candidates, (d: T) => key(d).Some?);
    assert m in multiset(ordered);
    var k :| 0 <= k < |ordered| && ordered[k] == m;
    assert r == ordered[..|r|];
    assert k >= |r|;
    forall e | e in r ensures Precedes(e, m, key, dir) {
      var i :| 0 <= i < |r| && r[i] == e;
      assert ordered[i] == e;
    }
  }

  /** With no limit and no cursor, every matching row that carries the order field comes back. */
  lemma QueryComplete<T(!new)>(rows: seq<Row<T>>, p: T -> bool, key: T -> Option<int>, dir: Direction, m: Row<T>)
    requires m in rows && p(m.doc) && key(m.doc).Some?
    ensures m in Query(rows, p, key, dir, None, 0)
  {
    if m !in Query(rows, p, key, dir, None, 0) {
      QueryTopN(rows, p, key, dir, None, 0, m);
    }
  }

  /** Filtering distributes over concatenation. */
  lemma {:induction false} WhereConcat<T(!new)>(a: seq<Row<T>>, b: seq<Row<T>>, p: T -> bool)
    ensures Where(a + b, p) == Where(a, p) + Where(b, p)
  {
    if a == [] {
      assert a + b == b;
    } else {
      var x, ab := a[0], a + b;
      assert ab[0] == x && ab[1..] == a[1..] + b;
      WhereConcat(a[1..], b, p);
      var head := if p(x.doc) then [x] else [];
      assert Where(ab, p) == head + Where(ab[1..], p);
      assert Where(a, p) == head + Where(a[1..], p);
      assert head + (Where(a[1..], p) + Where(b, p)) == (head + Where(a[1..], p)) + Where(b, p);
    }
  }

  /** A filter every row passes keeps the rows as they are. */
  lemma {:induction false} WhereAll<T(!new)>(rows: seq<Row<T>>, p: T -> bool)
    requires forall row :: row in rows ==> p(row.doc)
    ensures Where(rows, p) == rows
  {
    if rows != [] {
      WhereAll(rows[1..], p);
    }
  }

  /** Filtering twice is filtering once by the conjunction. */
  lemma {:induction false} WhereWhere<T(!new)>(rows: seq<Row<T>>, p: T -> bool, q: T -> bool, both: T -> bool)
    requires forall d :: both(d) == (p(d) && q(d))
    ensures Where(Where(rows, p), q) == Where(rows, both)
  {
    if rows != [] {
      WhereWhere(rows[1..], p, q, both);
    }
  }

  /** Without a cursor nothing is skipped. */
  lemma {:induction false} StartAfterNone<T(!new)>(rows: seq<Row<T>>, key: T -> Option<int>, dir: Direction)
    ensures StartAfter(rows, None, key, dir) == rows
  {
    if rows != [] {
      StartAfterNone(rows[1..], key, dir);
    }
  }

  /** How many rows pass a filter depends only on the rows, not on their order. */
  lemma {:induction false} WherePermutation<T(!new)>(a: seq<Row<T>>, b: seq<Row<T>>, p: T -> bool)
    requires multiset(a) == multiset(b)
    ensures |Where(a, p)| == |Where(b, p)|
    decreases |a|
  {
    if a == [] {
      assert |b| == |multiset(b)| == 0;
    } else {
      var x := a[0];
      assert x in multiset(b);
      var k :| 0 <= k < |b| && b[k] == x;
      var rest := b[..k] + b[k + 1..];
      assert b == b[..k] + [x] + b[k + 1..];
      assert a == [x] + a[1..];
      assert multiset(b) == multiset(b[..k]) + multiset{x} + multiset(b[k + 1..]);
      assert multiset(a) == multiset{x} + multiset(a[1..]);
      assert multiset(rest) == multiset(b[..k]) + multiset(b[k + 1..]);
      assert multiset(rest) == multiset(b) - multiset{x};
      assert multiset(a[1..]) == multiset(a) - multiset{x};
      WherePermutation(a[1..], rest, p);
      WhereConcat(b[..k] + [x], b[k + 1..], p);
      WhereConcat(b[..k], [x], p);
      WhereConcat(b[..k], b[k + 1..], p);
      WhereConcat([x], a[1..], p);
    }
  }

  /** The ids of the documents below `bound` that pass `p`. */
  function IdsWhere<T(!new)>(docs: map<nat, T>, bound: nat, p: T -> bool): set<nat> {
    set id | id in docs && id < bound && p(docs[id])
  }

  lemma IdsWhereStep<T(!new)>(docs: map<nat, T>, b: nat, p: T -> bool)
    ensures |IdsWhere(docs, b + 1, p)| == |IdsWhere(docs, b, p)| + (if b in docs && p(docs[b]) then 1 else 0)
  {
    var before, after := IdsWhere(docs, b, p), IdsWhere(docs, b + 1, p);
    if b in docs && p(docs[b]) {
      assert after == before + {b} by {
        assert forall id :: id in after <==> id in before || id == b;
      }
      assert b !in before;
    } else {
      assert after == before by {
        assert forall id :: id in after <==> id in before;
      }
    }
  }

  lemma ScanWhereStep<T(!new)>(docs: map<nat, T>, b: nat, p: T -> bool)
    ensures |Where(Scan(docs, b + 1), p)| == |Where(Scan(docs, b), p)| + (if b in docs && p(docs[b]) then 1 else 0)
  {
    if b in docs {
      WhereConcat(Scan(docs, b), [Row(b, docs[b])], p);
    }
  }

  /** The rows of a scan that pass a filter, counted as the ids of the documents that do. */
  lemma {:induction false} ScanWhereCount<T(!new)>(docs: map<nat, T>, bound: nat, p: T -> bool)
    ensures |Where(Scan(docs, bound), p)| == |IdsWhere(docs, bound, p)|
  {
    if bound == 0 {
      assert IdsWhere(docs, 0, p) == {};
    } else {
      var b := bound - 1;
      ScanWhereCount(docs, b, p);
      ScanWhereStep(docs, b, p);
      IdsWhereStep(docs, b, p);
    }
  }

  /**
   * A query with no cursor and no limit over a field every document carries returns every
   * matching document once: counted with any further filter `q`, it has as many rows as there
   * are matching document ids.
   */
  lemma QueryCount<T(!new)>(docs: map<nat, T>, bound: nat, p: T -> bool, key: T -> Option<int>, dir: Direction, q: T -> bool, both: T -> bool)
    requires forall d :: key(d).Some?
    requires forall d :: both(d) == (p(d) && q(d))
    ensures |Query(Scan(docs, bound), p, key, dir, None, 0)| == |IdsWhere(docs, bound, p)|
    ensures |Where(Query(Scan(docs, bound), p, key, dir, None, 0), q)| == |IdsWhere(docs, bound, both)|
  {
    var matching := Where(Scan(docs, bound), p);
    StartAfterNone(matching, key, dir);
    WhereAll(matching, (d: T) => key(d).Some?);
    var r := Query(Scan(docs, bound), p, key, dir, None, 0);
    assert multiset(r) == multiset(matching);
    assert |r| == |multiset(r)| == |multiset(matching)| == |matching|;
    ScanWhereCount(docs, bound, p);
    WherePermutation(r, matching, q);
    WhereWhere(Scan(docs, bound), p, q, both);
    ScanWhereCount(docs, bound, both);
  }

  /** The first row of a query result (`docs[0]`), if any. */
  function First<T(==,!new)>(rows: seq<Row<T>>): (r: Option<Row<T>>)
    ensures r.None? <==> rows == []
    ensures r.Some? ==> r.value in rows
  {
    if rows == [] then None else Some(rows[0])
  }

  /**
   * The single-document lookup of a query with `limit(1)` and no order: the matching document
   * with the smallest id.
   */
  lemma {:induction false} FirstMatchIsSmallest<T(!new)>(docs: map<nat, T>, bound: nat, p: T -> bool)
    ensures var r := First(Where(Scan(docs, bound), p));
      && (r.None? <==> forall id :: id in docs && id < bound ==> !p(docs[id]))
      && (r.Some? ==> r.value.id in docs && docs[r.value.id] == r.value.doc && p(r.value.doc))
      && (r.Some? ==> forall id :: id in docs && id < bound && p(docs[id]) ==> r.value.id <= id)
  {
    var rows := Where(Scan(docs, bound), p);
    WhereAscending(Scan(docs, bound), p);
    if rows != [] {
      AscendingFirst(rows);
      forall id | id in docs && id < bound && p(docs[id]) ensures rows[0].id <= id {
        assert Row(id, docs[id]) in rows;
      }
    } else {
      forall id | id in docs && id < bound ensures !p(docs[id]) {
        assert Row(id, docs[id]) in Scan(docs, bound);
        assert Row(id, docs[id]) !in rows;
      }
    }
  }
}
