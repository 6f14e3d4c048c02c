/** Python's `sorted` on strings and on tuples of strings: the order, and why the result depends only on the
    elements. */
module Ordering {

  /** `a <= b` for strings, by code point. */
  predicate StringLeq(a: string, b: string) {
    a == "" || (b != "" && (a[0] < b[0] || (a[0] == b[0] && StringLeq(a[1..], b[1..]))))
  }

  /** `a <= b` for tuples of strings. */
  predicate RowLeq(a: seq<string>, b: seq<string>) {
    a == [] || (b != [] && ((a[0] != b[0] && StringLeq(a[0], b[0])) || (a[0] == b[0] && RowLeq(a[1..], b[1..]))))
  }

  lemma {:induction false} StringTotal(a: string, b: string)
    ensures StringLeq(a, b) || StringLeq(b, a)
    ensures StringLeq(a, b) && StringLeq(b, a) ==> a == b
  {
    if a != "" && b != "" && a[0] == b[0] {
      StringTotal(a[1..], b[1..]);
      assert a == [a[0]] + a[1..] && b == [b[0]] + b[1..];
    }
  }

  lemma {:induction false} StringTransitive(a: string, b: string, c: string)
    requires StringLeq(a, b) && StringLeq(b, c)
    ensures StringLeq(a, c)
  {
    if a != "" && a[0] == b[0] == c[0] {
      StringTransitive(a[1..], b[1..], c[1..]);
    }
  }

  lemma {:induction false} RowTotal(a: seq<string>, b: seq<string>)
    ensures RowLeq(a, b) || RowLeq(b, a)
    ensures RowLeq(a, b) && RowLeq(b, a) ==> a == b
  {
    if a != [] && b != [] {
      StringTotal(a[0], b[0]);
      if a[0] == b[0] {
        RowTotal(a[1..], b[1..]);
        assert a == [a[0]] + a[1..] && b == [b[0]] + b[1..];
      }
    }
  }

  lemma {:induction false} RowTransitive(a: seq<string>, b: seq<string>, c: seq<string>)
    requires RowLeq(a, b) && RowLeq(b, c)
    ensures RowLeq(a, c)
  {
    if a != [] {
      if a[0] == b[0] == c[0] {
        RowTransitive(a[1..], b[1..], c[1..]);
      } else if a[0] != b[0] && b[0] != c[0] {
        StringTransitive(a[0], b[0], c[0]);
        StringTotal(a[0], b[0]);
      }
    }
  }

  /** The first place where two strings or tuples differ. */
  predicate DifferAt<T(==)>(a: seq<T>, b: seq<T>, i: int) {
    0 <= i < |a| && i < |b| && a[..i] == b[..i] && a[i] != b[i]
  }

  lemma {:induction false} DifferSomewhere<T>(a: seq<T>, b: seq<T>)
    ensures a <= b || b <= a || exists i :: DifferAt(a, b, i)
  {
    if a != [] && b != [] {
      if a[0] != b[0] {
        assert DifferAt(a, b, 0);
      } else {
        DifferSomewhere(a[1..], b[1..]);
        if i :| DifferAt(a[1..], b[1..], i) {
          assert DifferAt(a, b, i + 1) by {
            assert a[..i + 1] == [a[0]] + a[1..][..i] && b[..i + 1] == [b[0]] + b[1..][..i];
          }
        } else {
          assert a == [a[0]] + a[1..] && b == [b[0]] + b[1..];
        }
      }
    }
  }

  lemma DiffersEarlier<T>(a: seq<T>, b: seq<T>, i: int)
    requires DifferAt(a, b, i) && i > 0
    ensures a[0] == b[0] && DifferAt(a[1..], b[1..], i - 1)
  {
    assert a[0] == a[..i][0] && b[0] == b[..i][0];
    assert a[1..][..i - 1] == a[..i][1..] && b[1..][..i - 1] == b[..i][1..];
  }

  /** The first character that differs decides. */
  lemma {:induction false} StringDecided(a: string, b: string, i: nat)
    requires DifferAt(a, b, i)
    ensures StringLeq(a, b) <==> a[i] < b[i]
  {
    if i > 0 {
      DiffersEarlier(a, b, i);
      StringDecided(a[1..], b[1..], i - 1);
    }
  }

  lemma {:induction false} PrefixLeq(a: string, b: string)
    requires a <= b
    ensures StringLeq(a, b)
  {
    if a != "" {
      PrefixLeq(a[1..], b[1..]);
    }
  }

  /** A string comes before another when it is its beginning, or by the code points at the first difference. */
  lemma StringLeqMeans(a: string, b: string)
    ensures StringLeq(a, b) <==> a <= b || exists i :: DifferAt(a, b, i) && a[i] < b[i]
  {
    hide StringLeq;
    DifferSomewhere(a, b);
    if a <= b {
      PrefixLeq(a, b);
    } else if b <= a {
      PrefixLeq(b, a);
      StringTotal(a, b);
    }
    forall i | DifferAt(a, b, i) ensures StringLeq(a, b) <==> a[i] < b[i] {
      StringDecided(a, b, i);
    }
  }

  /** The first component that differs decides. */
  lemma {:induction false} RowDecided(r: seq<string>, s: seq<string>, n: nat)
    requires DifferAt(r, s, n)
    ensures RowLeq(r, s) <==> StringLeq(r[n], s[n])
  {
    if n > 0 {
      DiffersEarlier(r, s, n);
      RowDecided(r[1..], s[1..], n - 1);
    }
  }

  predicate Ordered(rows: seq<seq<string>>) {
    forall i, j :: 0 <= i <= j < |rows| ==> RowLeq(rows[i], rows[j])
  }

  function Insert(row: seq<string>, rows: seq<seq<string>>): (r: seq<seq<string>>)
    ensures multiset(r) == multiset(rows) + multiset{row}
  {
    if rows == [] then [row]
    else if RowLeq(row, rows[0]) then [row] + rows
    else
      assert rows == [rows[0]] + rows[1..];
      [rows[0]] + Insert(row, rows[1..])
  }

  /** `sorted(rows)`. */
  function Sort(rows: seq<seq<string>>): (r: seq<seq<string>>)
    ensures multiset(r) == multiset(rows)
  {
    if rows == [] then []
    else
      assert rows == [rows[0]] + rows[1..];
      Insert(rows[0], Sort(rows[1..]))
  }

  lemma {:induction false} InsertOrders(row: seq<string>, rows: seq<seq<string>>)
    requires Ordered(rows)
    ensures Ordered(Insert(row, rows))
  {
    hide RowLeq;
    RowTotal(row, row);
    if rows != [] {
      RowTotal(row, rows[0]);
      if RowLeq(row, rows[0]) {
        forall j | 0 <= j < |rows| ensures RowLeq(row, rows[j]) {
          RowTransitive(row, rows[0], rows[j]);
        }
      } else {
        var rest := Insert(row, rows[1..]);
        InsertOrders(row, rows[1..]);
        RowTotal(rows[0], rows[0]);
        forall j | 0 <= j < |rest| ensures RowLeq(rows[0], rest[j]) {
          assert rest[j] in multiset(rest);
          assert rest[j] == row || rest[j] in rows[1..];
        }
      }
    }
  }

  lemma {:induction false} SortOrders(rows: seq<seq<string>>)
    ensures Ordered(Sort(rows))
  {
    if rows != [] {
      SortOrders(rows[1..]);
      InsertOrders(rows[0], Sort(rows[1..]));
    }
  }

  lemma FirstIsLeast(rows: seq<seq<string>>, row: seq<string>)
    requires Ordered(rows) && row in multiset(rows)
    ensures RowLeq(rows[0], row)
  {
    hide RowLeq;
    var i :| 0 <= i < |rows| && rows[i] == row;
    assert RowLeq(rows[0], rows[i]);
  }

  lemma SameFirst(a: seq<seq<string>>, b: seq<seq<string>>)
    requires Ordered(a) && Ordered(b) && a != [] && b != [] && multiset(a) == multiset(b)
    ensures a[0] == b[0]
  {
    hide RowLeq, Ordered;
    assert a[0] in multiset(a) && b[0] in multiset(b);
    FirstIsLeast(a, b[0]);
    FirstIsLeast(b, a[0]);
    RowTotal(a[0], b[0]);
  }

  lemma TailMultiset(a: seq<seq<string>>)
    requires a != []
    ensures multiset(a[1..]) == multiset(a) - multiset{a[0]}
  {
    assert a == [a[0]] + a[1..];
  }

  lemma TailOrdered(a: seq<seq<string>>)
    requires a != [] && Ordered(a)
    ensures Ordered(a[1..])
  {
    hide RowLeq;
  }

  /** Two ordered sequences with the same elements are the same sequence. */
  lemma {:induction false} OrderedIsUnique(a: seq<seq<string>>, b: seq<seq<string>>)
    requires Ordered(a) && Ordered(b) && multiset(a) == multiset(b)
    ensures a == b
  {
    hide RowLeq, Ordered;
    assert |a| == |multiset(a)| && |b| == |multiset(b)|;
    if a != [] {
      SameFirst(a, b);
      TailMultiset(a);
      TailMultiset(b);
      TailOrdered(a);
      TailOrdered(b);
      OrderedIsUnique(a[1..], b[1..]);
      assert a == [a[0]] + a[1..] && b == [b[0]] + b[1..];
    }
  }

  /** Sorting leaves an ordered sequence alone. */
  lemma SortedStays(rows: seq<seq<string>>)
    requires Ordered(rows)
    ensures Sort(rows) == rows
  {
    hide Sort, Ordered;
    SortOrders(rows);
    OrderedIsUnique(Sort(rows), rows);
  }

  /** Sorting forgets the order of its input. */
  lemma SortForgetsOrder(a: seq<seq<string>>, b: seq<seq<string>>)
    requires multiset(a) == multiset(b)
    ensures Sort(a) == Sort(b)
  {
    hide Sort, Ordered;
    SortOrders(a);
    SortOrders(b);
    OrderedIsUnique(Sort(a), Sort(b));
  }

  /** The last element of a sequence can be taken out of any reordering of it. */
  lemma TakenOut<T>(a: seq<T>, b: seq<T>) returns (i: nat)
    requires a != [] && multiset(a) == multiset(b)
    ensures i < |b| && b[i] == a[|a| - 1] && b == b[..i] + [b[i]] + b[i + 1..]
    ensures multiset(a[..|a| - 1]) == multiset(b[..i] + b[i + 1..])
  {
    var last := |a| - 1;
    assert a == a[..last] + [a[last]];
    assert a[last] in multiset(b);
    i :| 0 <= i < |b| && b[i] == a[last];
    var left, right := b[..i], b[i + 1..];
    assert b == left + [b[i]] + right;
    assert multiset(b) == multiset(left) + multiset{b[i]} + multiset(right);
    assert multiset(a) == multiset(a[..last]) + multiset{a[last]};
    var x := b[i];
    assert multiset(left + right) == multiset(b) - multiset{x};
    assert multiset(a[..last]) == multiset(a) - multiset{x};
  }
}
