/**
 * Ordering weather records by their ISO date: the comparator
 * `a.date.localeCompare(b.date)` and the array sort that uses it. On
 * YYYY-MM-DD strings the comparison amounts to comparing characters left to
 * right; the sort is stable, as the ECMAScript sort is.
 */
module DateOrder {
  import opened WeatherService

  /**
   * The textbook lexicographic order: a is a prefix of b, or at the first
   * position where they differ a has the smaller character.
   */
  ghost predicate LexicographicLeq(a: string, b: string) {
    a <= b || exists k :: 0 <= k < |a| && k < |b| && a[..k] == b[..k] && a[k] < b[k]
  }

  /** The lexicographic order, decided on the first characters. */
  lemma LexicographicStep(a: string, b: string)
    requires |a| > 0 && |b| > 0
    ensures LexicographicLeq(a, b) <==>
      a[0] < b[0] || (a[0] == b[0] && LexicographicLeq(a[1..], b[1..]))
  {
    if LexicographicLeq(a, b) {
      LexicographicHead(a, b);
    }
    if a[0] < b[0] || (a[0] == b[0] && LexicographicLeq(a[1..], b[1..])) {
      LexicographicCons(a, b);
    }
  }

  lemma LexicographicHead(a: string, b: string)
    requires |a| > 0 && |b| > 0 && LexicographicLeq(a, b)
    ensures a[0] < b[0] || (a[0] == b[0] && LexicographicLeq(a[1..], b[1..]))
  {
    if !(a <= b) {
      var k :| 0 <= k < |a| && k < |b| && a[..k] == b[..k] && a[k] < b[k];
      if k > 0 {
        assert a[0] == a[..k][0] == b[..k][0] == b[0];
        assert a[1..][..k - 1] == a[..k][1..] == b[..k][1..] == b[1..][..k - 1];
      }
    }
  }

  lemma LexicographicCons(a: string, b: string)
    requires |a| > 0 && |b| > 0
    requires a[0] < b[0] || (a[0] == b[0] && LexicographicLeq(a[1..], b[1..]))
    ensures LexicographicLeq(a, b)
  {
    if a[0] < b[0] {
      assert a[..0] == b[..0];
    } else if a[1..] <= b[1..] {
      assert a == [a[0]] + a[1..] && b == [b[0]] + b[1..];
    } else {
      var k :| 0 <= k < |a[1..]| && k < |b[1..]| && a[1..][..k] == b[1..][..k] && a[1..][k] < b[1..][k];
      assert a[..k + 1] == [a[0]] + a[1..][..k] && b[..k + 1] == [b[0]] + b[1..][..k];
      assert a[k + 1] < b[k + 1];
    }
  }

  /**
   * a sorts no later than b: characters compared left to right, a prefix
   * first. It is the lexicographic order.
   */
  predicate DateLeq(a: string, b: string): (leq: bool)
    ensures leq <==> LexicographicLeq(a, b)
    decreases |a|
  {
    if |a| == 0 then
      assert a <= b;
      true
    else if |b| == 0 then
      assert !(a <= b);
      false
    else
      LexicographicStep(a, b);
      a[0] < b[0] || (a[0] == b[0] && DateLeq(a[1..], b[1..]))
  }

  lemma {:induction false} DateLeqTotal(a: string, b: string)
    ensures DateLeq(a, b) || DateLeq(b, a)
    decreases |a|
  {
    if |a| > 0 && |b| > 0 && a[0] == b[0] {
      DateLeqTotal(a[1..], b[1..]);
    }
  }

  lemma {:induction false} DateLeqTransitive(a: string, b: string, c: string)
    requires DateLeq(a, b) && DateLeq(b, c)
    ensures DateLeq(a, c)
    decreases |a|
  {
    if |a| > 0 && a[0] == b[0] && b[0] == c[0] {
      DateLeqTransitive(a[1..], b[1..], c[1..]);
    }
  }

  lemma {:induction false} DateLeqAntisymmetric(a: string, b: string)
    requires DateLeq(a, b) && DateLeq(b, a)
    ensures a == b
    decreases |a|
  {
    if |a| > 0 {
      DateLeqAntisymmetric(a[1..], b[1..]);
      assert a == [a[0]] + a[1..] && b == [b[0]] + b[1..];
    }
  }

  ghost predicate SortedByDate(s: seq<WeatherDay>) {
    forall i, j :: 0 <= i < j < |s| ==> DateLeq(s[i].date, s[j].date)
  }

  /** Some record of s carries date d. */
  ghost predicate HasDate(s: seq<WeatherDay>, d: string) {
    exists i :: 0 <= i < |s| && s[i].date == d
  }

  /** No two records of s share a date. */
  ghost predicate UniqueDates(s: seq<WeatherDay>) {
    forall i, j :: 0 <= i < j < |s| ==> s[i].date != s[j].date
  }

  /** Places x before the first record that does not sort before it. */
  function Insert(x: WeatherDay, s: seq<WeatherDay>): (r: seq<WeatherDay>)
    ensures |r| == |s| + 1
    ensures multiset(r) == multiset(s) + multiset{x}
  {
    if s == [] || DateLeq(x.date, s[0].date) then [x] + s
    else
      assert s == [s[0]] + s[1..];
      [s[0]] + Insert(x, s[1..])
  }

  /** Insertion sort by date, stable. */
  function SortByDate(s: seq<WeatherDay>): (r: seq<WeatherDay>)
    ensures |r| == |s|
    ensures multiset(r) == multiset(s)
  {
    if s == [] then []
    else
      assert s == [s[0]] + s[1..];
      Insert(s[0], SortByDate(s[1..]))
  }

  lemma {:induction false} InsertSorted(x: WeatherDay, s: seq<WeatherDay>)
    requires SortedByDate(s)
    ensures SortedByDate(Insert(x, s))
  {
    if s == [] || DateLeq(x.date, s[0].date) {
      forall k | 0 <= k < |s|
        ensures DateLeq(x.date, s[k].date)
      {
        if k > 0 {
          DateLeqTransitive(x.date, s[0].date, s[k].date);
        }
      }
      assert Insert(x, s) == [x] + s;
    } else {
      DateLeqTotal(x.date, s[0].date);
      InsertSorted(x, s[1..]);
      var rest := Insert(x, s[1..]);
      forall j | 0 <= j < |rest|
        ensures DateLeq(s[0].date, rest[j].date)
      {
        assert rest[j] in multiset(rest);
        assert rest[j] == x || rest[j] in s[1..];
      }
    }
  }

  lemma {:induction false} SortByDateSorted(s: seq<WeatherDay>)
    ensures SortedByDate(SortByDate(s))
  {
    if s != [] {
      SortByDateSorted(s[1..]);
      InsertSorted(s[0], SortByDate(s[1..]));
    }
  }

  lemma HasDateIffMember(s: seq<WeatherDay>, d: string)
    ensures HasDate(s, d) <==> exists x: WeatherDay :: x in multiset(s) && x.date == d
  {
    if HasDate(s, d) {
      var i :| 0 <= i < |s| && s[i].date == d;
      assert s[i] in multiset(s);
    }
  }

  /** Inserting x adds x's date to the dates present and no other. */
  lemma InsertHasDate(x: WeatherDay, s: seq<WeatherDay>, d: string)
    ensures HasDate(Insert(x, s), d) <==> d == x.date || HasDate(s, d)
  {
    HasDateIffMember(Insert(x, s), d);
    HasDateIffMember(s, d);
    assert x in multiset(Insert(x, s));
  }

  lemma HasDateInTail(s: seq<WeatherDay>, d: string)
    requires s != []
    ensures HasDate(s[1..], d) ==> HasDate(s, d)
  {
    if HasDate(s[1..], d) {
      var i :| 0 <= i < |s[1..]| && s[1..][i].date == d;
      assert s[i + 1].date == d;
    }
  }

  /** Inserting a record whose date is new keeps the dates unique. */
  lemma {:induction false} InsertUnique(x: WeatherDay, s: seq<WeatherDay>)
    requires UniqueDates(s) && !HasDate(s, x.date)
    ensures UniqueDates(Insert(x, s))
  {
    if s == [] || DateLeq(x.date, s[0].date) {
      assert Insert(x, s) == [x] + s;
      assert forall j :: 0 <= j < |s| ==> s[j].date != x.date;
    } else {
      HasDateInTail(s, x.date);
      assert UniqueDates(s[1..]) by {
        forall i, j | 0 <= i < j < |s[1..]| ensures s[1..][i].date != s[1..][j].date {
          assert s[1..][i] == s[i + 1] && s[1..][j] == s[j + 1];
        }
      }
      InsertUnique(x, s[1..]);
      var rest := Insert(x, s[1..]);
      assert !HasDate(s[1..], s[0].date) by {
        assert forall j :: 0 <= j < |s[1..]| ==> s[1..][j] == s[j + 1];
      }
      assert s[0].date != x.date;
      InsertHasDate(x, s[1..], s[0].date);
      var r := Insert(x, s);
      assert r == [s[0]] + rest;
      forall i, j | 0 <= i < j < |r| ensures r[i].date != r[j].date {
        if i == 0 {
          assert r[j] == rest[j - 1];
        } else {
          assert r[i] == rest[i - 1] && r[j] == rest[j - 1];
        }
      }
    }
  }

  /** Sorting keeps the dates unique. */
  lemma {:induction false} SortByDateUnique(s: seq<WeatherDay>)
    requires UniqueDates(s)
    ensures UniqueDates(SortByDate(s))
  {
    if s != [] {
      var tail := s[1..];
      assert UniqueDates(tail) by {
        forall i, j | 0 <= i < j < |tail| ensures tail[i].date != tail[j].date {
          assert tail[i] == s[i + 1] && tail[j] == s[j + 1];
        }
      }
      assert !HasDate(tail, s[0].date) by {
        assert forall j :: 0 <= j < |tail| ==> tail[j] == s[j + 1];
      }
      SortByDateUnique(tail);
      HasDateIffMember(tail, s[0].date);
      HasDateIffMember(SortByDate(tail), s[0].date);
      InsertUnique(s[0], SortByDate(tail));
    }
  }
}
