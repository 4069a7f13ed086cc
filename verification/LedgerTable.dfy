/** The append-only credit ledger with its unique index over idempotency keys: what inserting does to keys and to sums,
    and why neither order nor repetition matters. */
module LedgerTable {
  import opened Ledger

  datatype Row = Row(key: string, userId: string, bucket: Bucket, delta: int)

  predicate HasKey(rows: seq<Row>, key: string) {
    exists i :: 0 <= i < |rows| && rows[i].key == key
  }

  /** `INSERT … ON CONFLICT DO NOTHING`. */
  function InsertOnce(rows: seq<Row>, row: Row): seq<Row> {
    if HasKey(rows, row.key) then rows else rows + [row]
  }

  function InsertAll(rows: seq<Row>, more: seq<Row>): seq<Row> {
    if more == [] then rows else InsertOnce(InsertAll(rows, more[..|more| - 1]), more[|more| - 1])
  }

  predicate Counts(row: Row, userId: string, bucket: Bucket) {
    row.userId == userId && row.bucket == bucket
  }

  /** A balance is the sum of its entries. */
  function BalanceOf(rows: seq<Row>, userId: string, bucket: Bucket): int {
    if rows == [] then 0
    else
      var last := rows[|rows| - 1];
      BalanceOf(rows[..|rows| - 1], userId, bucket) + if Counts(last, userId, bucket) then last.delta else 0
  }

  lemma BalanceOfOneMore(rows: seq<Row>, row: Row, userId: string, bucket: Bucket)
    ensures BalanceOf(rows + [row], userId, bucket)
            == BalanceOf(rows, userId, bucket) + if Counts(row, userId, bucket) then row.delta else 0
  {
    assert (rows + [row])[..|rows|] == rows;
  }

  lemma HasKeyOneMore(rows: seq<Row>, row: Row, key: string)
    ensures HasKey(rows + [row], key) <==> HasKey(rows, key) || row.key == key
  {
    if HasKey(rows, key) {
      var i :| 0 <= i < |rows| && rows[i].key == key;
      assert (rows + [row])[i].key == key;
    }
    if row.key == key {
      assert (rows + [row])[|rows|].key == key;
    }
  }

  lemma {:induction false} InsertAllConcat(rows: seq<Row>, a: seq<Row>, b: seq<Row>)
    ensures InsertAll(rows, a + b) == InsertAll(InsertAll(rows, a), b)
    decreases |b|
  {
    if b == [] {
      assert a + b == a;
    } else {
      InsertAllConcat(rows, a, b[..|b| - 1]);
      assert (a + b)[..|a + b| - 1] == a + b[..|b| - 1];
    }
  }

  /** Every key written is there afterwards, and none other. */
  lemma {:induction false} InsertAllKeys(rows: seq<Row>, more: seq<Row>, key: string)
    ensures HasKey(InsertAll(rows, more), key) <==> HasKey(rows, key) || HasKey(more, key)
    decreases |more|
  {
    if more != [] {
      var front, last := more[..|more| - 1], more[|more| - 1];
      InsertAllKeys(rows, front, key);
      HasKeyOneMore(front, last, key);
      assert more == front + [last];
      HasKeyOneMore(InsertAll(rows, front), last, key);
    }
  }

  /* The order and repetition of inserts */

  /** What inserting adds. */
  function Added(rows: seq<Row>, more: seq<Row>): seq<Row> {
    if more == [] then []
    else
      var before := Added(rows, more[..|more| - 1]);
      var last := more[|more| - 1];
      if HasKey(rows, last.key) || HasKey(before, last.key) then before else before + [last]
  }

  lemma HasKeyConcat(a: seq<Row>, b: seq<Row>, key: string)
    ensures HasKey(a + b, key) <==> HasKey(a, key) || HasKey(b, key)
  {
    if HasKey(a, key) {
      var i :| 0 <= i < |a| && a[i].key == key;
      assert (a + b)[i].key == key;
    }
    if HasKey(b, key) {
      var i :| 0 <= i < |b| && b[i].key == key;
      assert (a + b)[|a| + i].key == key;
    }
  }

  lemma {:induction false} InsertAllAdds(rows: seq<Row>, more: seq<Row>)
    ensures InsertAll(rows, more) == rows + Added(rows, more)
    decreases |more|
  {
    if more == [] {
      assert rows + [] == rows;
    } else {
      var front, last := more[..|more| - 1], more[|more| - 1];
      InsertAllAdds(rows, front);
      HasKeyConcat(rows, Added(rows, front), last.key);
      assert rows + (Added(rows, front) + [last]) == rows + Added(rows, front) + [last];
    }
  }

  predicate KeyFixesRow(a: seq<Row>, b: seq<Row>) {
    forall i, j | 0 <= i < |a| && 0 <= j < |b| && a[i].key == b[j].key :: a[i] == b[j]
  }

  predicate DistinctKeys(rows: seq<Row>) {
    forall i, j | 0 <= i < j < |rows| :: rows[i].key != rows[j].key
  }

  lemma {:induction false} AddedIsDistinct(rows: seq<Row>, more: seq<Row>)
    ensures DistinctKeys(Added(rows, more))
    ensures forall r | r in Added(rows, more) :: r in more && !HasKey(rows, r.key)
    decreases |more|
  {
    if more != [] {
      AddedIsDistinct(rows, more[..|more| - 1]);
    }
  }

  lemma {:induction false} AddedHasAll(rows: seq<Row>, more: seq<Row>, r: Row)
    requires KeyFixesRow(more, more) && r in more && !HasKey(rows, r.key)
    ensures r in Added(rows, more)
    decreases |more|
  {
    var front, last := more[..|more| - 1], more[|more| - 1];
    if r in front {
      AddedHasAll(rows, front, r);
    } else {
      var before := Added(rows, front);
      AddedIsDistinct(rows, front);
      assert forall i | 0 <= i < |before| && before[i].key == last.key :: before[i] in front && before[i] == last;
    }
  }

  lemma {:induction false} DistinctMultiset(rows: seq<Row>, r: Row)
    requires DistinctKeys(rows)
    ensures multiset(rows)[r] == if r in rows then 1 else 0
    decreases |rows|
  {
    if rows != [] {
      var front, last := rows[..|rows| - 1], rows[|rows| - 1];
      assert rows == front + [last];
      DistinctMultiset(front, r);
    }
  }

  lemma {:induction false} BalanceOfConcat(a: seq<Row>, b: seq<Row>, userId: string, bucket: Bucket)
    ensures BalanceOf(a + b, userId, bucket) == BalanceOf(a, userId, bucket) + BalanceOf(b, userId, bucket)
    decreases |b|
  {
    if b == [] {
      assert a + b == a;
    } else {
      BalanceOfConcat(a, b[..|b| - 1], userId, bucket);
      assert (a + b)[..|a + b| - 1] == a + b[..|b| - 1];
    }
  }

  lemma MultisetWithout(rows: seq<Row>, i: nat)
    requires i < |rows|
    ensures multiset(rows) == multiset(rows[..i] + rows[i + 1..]) + multiset{rows[i]}
  {
    assert rows == rows[..i] + [rows[i]] + rows[i + 1..];
  }

  lemma MultisetCancels(a: multiset<Row>, b: multiset<Row>, x: Row)
    requires a + multiset{x} == b + multiset{x}
    ensures a == b
  {
    assert a == (a + multiset{x}) - multiset{x} && b == (b + multiset{x}) - multiset{x};
  }

  lemma BalanceWithout(rows: seq<Row>, i: nat, userId: string, bucket: Bucket)
    requires i < |rows|
    ensures BalanceOf(rows, userId, bucket)
            == BalanceOf(rows[..i] + rows[i + 1..], userId, bucket)
               + if Counts(rows[i], userId, bucket) then rows[i].delta else 0
  {
    var left, right := rows[..i], rows[i + 1..];
    assert rows == left + [rows[i]] + right;
    BalanceOfConcat(left, right, userId, bucket);
    BalanceOfConcat(left + [rows[i]], right, userId, bucket);
    BalanceOfOneMore(left, rows[i], userId, bucket);
  }

  /** A sum does not depend on the order of its entries. */
  lemma {:induction false} BalanceOfPermuted(a: seq<Row>, b: seq<Row>, userId: string, bucket: Bucket)
    requires multiset(a) == multiset(b)
    ensures BalanceOf(a, userId, bucket) == BalanceOf(b, userId, bucket)
    decreases |a|
  {
    if a == [] {
      assert |multiset(b)| == 0;
    } else {
      var front, last := a[..|a| - 1], a[|a| - 1];
      MultisetWithout(a, |front|);
      assert front + a[|front| + 1..] == front;
      assert last in multiset(b);
      var i :| 0 <= i < |b| && b[i] == last;
      var rest := b[..i] + b[i + 1..];
      MultisetWithout(b, i);
      MultisetCancels(multiset(front), multiset(rest), last);
      BalanceOfPermuted(front, rest, userId, bucket);
      BalanceWithout(b, i, userId, bucket);
    }
  }

  ghost predicate SameRows(a: seq<Row>, b: seq<Row>) {
    forall r :: r in a <==> r in b
  }

  /** Inserts that name the same rows leave the same balance, whatever their order and however often they are
      repeated. */
  lemma InsertsCommute(rows: seq<Row>, a: seq<Row>, b: seq<Row>, userId: string, bucket: Bucket)
    requires SameRows(a, b) && KeyFixesRow(a, a) && KeyFixesRow(b, b)
    ensures BalanceOf(InsertAll(rows, a), userId, bucket) == BalanceOf(InsertAll(rows, b), userId, bucket)
  {
    var x, y := Added(rows, a), Added(rows, b);
    InsertAllAdds(rows, a);
    InsertAllAdds(rows, b);
    AddedIsDistinct(rows, a);
    AddedIsDistinct(rows, b);
    forall r ensures multiset(x)[r] == multiset(y)[r] {
      DistinctMultiset(x, r);
      DistinctMultiset(y, r);
      if r in a && !HasKey(rows, r.key) {
        AddedHasAll(rows, a, r);
        AddedHasAll(rows, b, r);
      }
    }
    BalanceOfPermuted(x, y, userId, bucket);
    BalanceOfConcat(rows, x, userId, bucket);
    BalanceOfConcat(rows, y, userId, bucket);
  }

  lemma {:induction false} InsertAllNew(rows: seq<Row>, more: seq<Row>)
    requires DistinctKeys(more) && forall r | r in more :: !HasKey(rows, r.key)
    ensures InsertAll(rows, more) == rows + more
    decreases |more|
  {
    if more == [] {
      assert rows + more == rows;
    } else {
      var front, last := more[..|more| - 1], more[|more| - 1];
      InsertAllNew(rows, front);
      HasKeyConcat(rows, front, last.key);
      assert rows + front + [last] == rows + more;
    }
  }

  lemma {:induction false} InsertAllKnown(rows: seq<Row>, more: seq<Row>)
    requires forall r | r in more :: HasKey(rows, r.key)
    ensures InsertAll(rows, more) == rows
    decreases |more|
  {
    if more != [] {
      InsertAllKnown(rows, more[..|more| - 1]);
    }
  }

  lemma InsertAllTwice(rows: seq<Row>, more: seq<Row>)
    requires DistinctKeys(more) && forall r | r in more :: !HasKey(rows, r.key)
    ensures InsertAll(rows, more) == rows + more && InsertAll(rows + more, more) == rows + more
  {
    InsertAllNew(rows, more);
    forall r | r in more ensures HasKey(rows + more, r.key) {
      var k :| 0 <= k < |more| && more[k] == r;
      HasKeyConcat(rows, more, r.key);
    }
    InsertAllKnown(rows + more, more);
  }
}
