/** Ordering transactions by their date string, the way a stable sort keyed
    on `date` does: ascending by Python's string `<`, ties kept in the order
    they had. */
module DateSort {
  import opened StringOrder
  import opened Transactions

  predicate SortedByDate(s: seq<Transaction>)
  {
    forall i, j :: 0 <= i < j < |s| ==> AtMost(s[i].date, s[j].date)
  }

  /** The transactions of `s` dated exactly `d`, in their order in `s`. */
  function WithDate(s: seq<Transaction>, d: string): seq<Transaction>
  {
    if s == [] then []
    else WithDate(s[..|s| - 1], d) + (if s[|s| - 1].date == d then [s[|s| - 1]] else [])
  }

  /** Inserts `t` into `s` behind every element whose date is not after its
      own, scanning from the back. */
  function InsertByDate(s: seq<Transaction>, t: Transaction): seq<Transaction>
  {
    if s == [] || !Less(t.date, s[|s| - 1].date) then s + [t]
    else InsertByDate(s[..|s| - 1], t) + [s[|s| - 1]]
  }

  /** Inserting adds `t` and loses nothing. */
  lemma {:induction false} InsertByDateMultiset(s: seq<Transaction>, t: Transaction)
    ensures multiset(InsertByDate(s, t)) == multiset(s) + multiset{t}
  {
    if s != [] && Less(t.date, s[|s| - 1].date) {
      InsertByDateMultiset(s[..|s| - 1], t);
      assert s == s[..|s| - 1] + [s[|s| - 1]];
    }
  }

  /** The stable sort by date: each element in turn is inserted into the
      sorted elements before it. */
  function SortByDate(s: seq<Transaction>): seq<Transaction>
  {
    if s == [] then []
    else InsertByDate(SortByDate(s[..|s| - 1]), s[|s| - 1])
  }

  /** Sorting one more element is inserting it into the sort of the others. */
  lemma SortByDateSnoc(s: seq<Transaction>, t: Transaction)
    ensures SortByDate(s + [t]) == InsertByDate(SortByDate(s), t)
  {
    assert (s + [t])[..|s|] == s;
  }

  /** An element dated before the last one goes in front of it. */
  lemma InsertBeforeLast(s: seq<Transaction>, t: Transaction)
    requires s != [] && Less(t.date, s[|s| - 1].date)
    ensures InsertByDate(s, t) == InsertByDate(s[..|s| - 1], t) + [s[|s| - 1]]
  {
  }

  /** What any stable sort by date promises about its result `r` for input `s`. */
  ghost predicate IsStableSortByDate(s: seq<Transaction>, r: seq<Transaction>)
  {
    SortedByDate(r) && forall d :: WithDate(r, d) == WithDate(s, d)
  }

  lemma {:induction false} WithDateConcat(a: seq<Transaction>, b: seq<Transaction>, d: string)
    ensures WithDate(a + b, d) == WithDate(a, d) + WithDate(b, d)
  {
    if b == [] {
      assert a + b == a;
    } else {
      assert (a + b)[..|a + b| - 1] == a + b[..|b| - 1];
      WithDateConcat(a, b[..|b| - 1], d);
    }
  }

  lemma {:induction false} WithDateMembers(s: seq<Transaction>, d: string, x: Transaction)
    ensures x in WithDate(s, d) <==> x in s && x.date == d
  {
    if s != [] {
      WithDateMembers(s[..|s| - 1], d, x);
      assert s == s[..|s| - 1] + [s[|s| - 1]];
    }
  }

  /** Inserting into a sorted list keeps it sorted. */
  lemma {:induction false} InsertByDateSorted(s: seq<Transaction>, t: Transaction)
    requires SortedByDate(s)
    ensures SortedByDate(InsertByDate(s, t))
  {
    var r := InsertByDate(s, t);
    if s == [] || !Less(t.date, s[|s| - 1].date) {
      forall i, j | 0 <= i < j < |r| ensures AtMost(r[i].date, r[j].date) {
        if j == |s| && i < |s| - 1 {
          AtMostTotalOrder(r[i].date, s[|s| - 1].date, t.date);
        }
      }
    } else {
      var init, last := s[..|s| - 1], s[|s| - 1];
      InsertByDateSorted(init, t);
      InsertByDateMultiset(init, t);
      var p := InsertByDate(init, t);
      forall i, j | 0 <= i < j < |r| ensures AtMost(r[i].date, r[j].date) {
        if j == |r| - 1 {
          assert r[i] in multiset(p);
          if r[i] == t {
            LessAsymmetric(t.date, last.date);
          } else {
            assert r[i] in multiset(init);
            var k :| 0 <= k < |init| && init[k] == r[i];
            assert s[k] == r[i];
          }
        } else {
          assert r[i] == p[i] && r[j] == p[j];
        }
      }
    }
  }

  /** Inserting `t` adds it after every element of its own date and leaves
      the other dates' elements as they were. */
  lemma {:induction false} InsertByDateStable(s: seq<Transaction>, t: Transaction, d: string)
    ensures WithDate(InsertByDate(s, t), d) == WithDate(s, d) + (if t.date == d then [t] else [])
  {
    if s == [] || !Less(t.date, s[|s| - 1].date) {
      WithDateConcat(s, [t], d);
      assert WithDate([t], d) == if t.date == d then [t] else [];
    } else {
      var init, last := s[..|s| - 1], s[|s| - 1];
      var p := InsertByDate(init, t);
      assert InsertByDate(s, t) == p + [last];
      assert WithDate(s, d) == WithDate(init, d) + (if last.date == d then [last] else []);
      InsertByDateStable(init, t, d);
      WithDateConcat(p, [last], d);
      assert WithDate([last], d) == if last.date == d then [last] else [];
      LessIrreflexive(t.date);
      assert t.date != last.date;
    }
  }

  /** `SortByDate` is a stable sort by date and a permutation of its input. */
  lemma {:induction false} SortByDateCorrect(s: seq<Transaction>)
    ensures IsStableSortByDate(s, SortByDate(s))
    ensures multiset(SortByDate(s)) == multiset(s)
  {
    if s != [] {
      var init, last := s[..|s| - 1], s[|s| - 1];
      SortByDateCorrect(init);
      InsertByDateSorted(SortByDate(init), last);
      InsertByDateMultiset(SortByDate(init), last);
      forall d ensures WithDate(SortByDate(s), d) == WithDate(s, d) {
        InsertByDateStable(SortByDate(init), last, d);
      }
      assert s == init + [last];
    }
  }

  /** Sorting and keeping each date's elements in order pin the result down:
      there is only one stable sort of a list. */
  lemma {:induction false} StableSortUnique(s: seq<Transaction>, r1: seq<Transaction>, r2: seq<Transaction>)
    requires IsStableSortByDate(s, r1) && IsStableSortByDate(s, r2)
    ensures r1 == r2
  {
    StableSortUniqueFrom(r1, r2);
  }

  lemma {:induction false} StableSortUniqueFrom(r1: seq<Transaction>, r2: seq<Transaction>)
    requires SortedByDate(r1) && SortedByDate(r2)
    requires forall d :: WithDate(r1, d) == WithDate(r2, d)
    ensures r1 == r2
  {
    // Each list's last element also occurs in the other list.
    if r1 != [] {
      var x := r1[|r1| - 1];
      WithDateMembers(r1, x.date, x);
      WithDateMembers(r2, x.date, x);
    }
    if r2 != [] {
      var x := r2[|r2| - 1];
      WithDateMembers(r2, x.date, x);
      WithDateMembers(r1, x.date, x);
    }
    if r1 != [] && r2 != [] {
      // The last elements carry the greatest date of either list, so they
      // have the same date, and each is the last one of that date.
      var a, b := r1[|r1| - 1], r2[|r2| - 1];
      var i :| 0 <= i < |r2| && r2[i] == a;
      var j :| 0 <= j < |r1| && r1[j] == b;
      AtMostTotalOrder(a.date, b.date, a.date);
      assert AtMost(a.date, b.date) by {
        if i < |r2| - 1 { assert AtMost(r2[i].date, r2[|r2| - 1].date); }
      }
      assert AtMost(b.date, a.date) by {
        if j < |r1| - 1 { assert AtMost(r1[j].date, r1[|r1| - 1].date); }
      }
      assert a.date == b.date;
      var p1, p2 := r1[..|r1| - 1], r2[..|r2| - 1];
      assert a == b by {
        assert WithDate(r1, a.date) == WithDate(p1, a.date) + [a];
        assert WithDate(r2, a.date) == WithDate(p2, a.date) + [b];
        var w := WithDate(r1, a.date);
        assert w == WithDate(r2, a.date);
        assert w[|w| - 1] == a && w[|w| - 1] == b;
      }
      forall d ensures WithDate(p1, d) == WithDate(p2, d) {
        var w1, w2 := WithDate(r1, d), WithDate(r2, d);
        assert w1 == w2;
        if a.date == d {
          assert w1 == WithDate(p1, d) + [a] && w2 == WithDate(p2, d) + [a];
          assert WithDate(p1, d) == w1[..|w1| - 1];
        } else {
          assert w1 == WithDate(p1, d) && w2 == WithDate(p2, d);
        }
      }
      StableSortUniqueFrom(p1, p2);
      assert r1 == p1 + [a] && r2 == p2 + [b];
    }
  }

  /** A list already sorted by date is left as it is. */
  lemma {:induction false} SortByDateSortedIdentity(s: seq<Transaction>)
    requires SortedByDate(s)
    ensures SortByDate(s) == s
  {
    if s != [] {
      var init := s[..|s| - 1];
      SortByDateSortedIdentity(init);
      if init != [] {
        assert AtMost(s[|s| - 2].date, s[|s| - 1].date);
      }
      assert s == init + [s[|s| - 1]];
    }
  }

  /** Sorting again after appending to a sorted result is sorting the whole
      input: how one insertion at a time builds the sort of a list. */
  lemma SortByDateResortAppend(s: seq<Transaction>, t: Transaction)
    ensures SortByDate(SortByDate(s) + [t]) == SortByDate(s + [t])
  {
    SortByDateCorrect(s);
    SortByDateSortedIdentity(SortByDate(s));
    assert (SortByDate(s) + [t])[..|SortByDate(s)|] == SortByDate(s);
    assert (s + [t])[..|s|] == s;
  }

  /** Everything `add_transaction` promises about the new list of
      transactions `r`, where `before` is the list it held before (empty when
      the key was absent). */
  lemma AddTransactionSpec(before: seq<Transaction>, t: Transaction)
    ensures var r := SortByDate(before + [t]);
      && SortedByDate(r)
      && multiset(r) == multiset(before) + multiset{t}
      && |r| == |before| + 1
      && WithDate(r, t.date) == WithDate(before, t.date) + [t]
      && (forall d :: d != t.date ==> WithDate(r, d) == WithDate(before, d))
      && (SortedByDate(before) ==> r == InsertByDate(before, t))
  {
    var r := SortByDate(before + [t]);
    SortByDateCorrect(before + [t]);
    assert |multiset(r)| == |multiset(before + [t])|;
    forall d ensures WithDate(before + [t], d) == WithDate(before, d) + (if t.date == d then [t] else []) {
      WithDateConcat(before, [t], d);
    }
    if SortedByDate(before) {
      SortByDateSortedIdentity(before);
      assert (before + [t])[..|before|] == before;
    }
  }

  /** A transaction added after one with a later date goes in front of it. */
  lemma SortTwoExample(later: Transaction, earlier: Transaction)
    requires Less(earlier.date, later.date)
    ensures SortByDate([later, earlier]) == [earlier, later]
  {
    SortByDateSnoc([], later);
    assert [] + [later] == [later];
    SortByDateSnoc([later], earlier);
    assert [later] + [earlier] == [later, earlier];
    InsertBeforeLast([later], earlier);
    assert [later][..0] == [];
  }

  /** An element dated between the two of a pair goes between them. */
  lemma InsertIntoPair(first: Transaction, second: Transaction, t: Transaction)
    requires !Less(t.date, first.date) && Less(t.date, second.date)
    ensures InsertByDate([first, second], t) == [first, t, second]
  {
    InsertBeforeLast([first, second], t);
    assert [first, second][..1] == [first];
    assert InsertByDate([first], t) == [first, t];
  }

  /** Three transactions added latest date first, then the earliest, then
      the middle one come out of the stable sort in date order. */
  lemma SortExample(march: Transaction, january: Transaction, february: Transaction)
    requires Less(january.date, february.date) && Less(february.date, march.date)
    ensures SortByDate([march, january, february]) == [january, february, march]
  {
    LessTransitive(january.date, february.date, march.date);
    LessAsymmetric(january.date, february.date);
    SortTwoExample(march, january);
    SortByDateSnoc([march, january], february);
    assert [march, january] + [february] == [march, january, february];
    InsertIntoPair(january, march, february);
  }
}
