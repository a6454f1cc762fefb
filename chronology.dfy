/** Ordering posts by publication date, as the feed readers do with a stable
    `sort_by` on `published`, and keeping the first few of them. */
module Chronology {
  import opened Posts

  datatype Order = NewestFirst | OldestFirst

  /** Whether `a` may stand before `b` in `order`. */
  predicate Precedes(order: Order, a: Post, b: Post) {
    match order
    case NewestFirst => a.published >= b.published
    case OldestFirst => a.published <= b.published
  }

  predicate Sorted(order: Order, s: seq<Post>) {
    forall i, j | 0 <= i < j < |s| :: Precedes(order, s[i], s[j])
  }

  /** Insert `p` before the first element it may precede. Since `p` comes
      from earlier in the input than every element of `s`, posts with equal
      dates keep their input order, as with a stable sort. */
  function Insert(order: Order, p: Post, s: seq<Post>): (r: seq<Post>)
    ensures multiset(r) == multiset(s) + multiset{p}
    ensures |r| == |s| + 1
  {
    if s == [] then [p]
    else if Precedes(order, p, s[0]) then [p] + s
    else
      assert s == [s[0]] + s[1..];
      [s[0]] + Insert(order, p, s[1..])
  }

  /** Inserting into a sorted sequence keeps it sorted. */
  lemma {:induction false} InsertSorted(order: Order, p: Post, s: seq<Post>)
    requires Sorted(order, s)
    ensures Sorted(order, Insert(order, p, s))
  {
    if s != [] && !Precedes(order, p, s[0]) {
      var rest := Insert(order, p, s[1..]);
      assert s == [s[0]] + s[1..];
      InsertSorted(order, p, s[1..]);
      forall k | 0 <= k < |rest| ensures Precedes(order, s[0], rest[k]) {
        assert rest[k] in multiset(rest);
        HeadPrecedesInserted(order, p, s, rest[k]);
      }
      SortedCons(order, s[0], rest);
    }
  }

  /** A head that may precede every element of a sorted tail gives a sorted
      sequence. */
  lemma SortedCons(order: Order, x: Post, t: seq<Post>)
    requires Sorted(order, t) && forall k | 0 <= k < |t| :: Precedes(order, x, t[k])
    ensures Sorted(order, [x] + t)
  {
    var r := [x] + t;
    forall i, j | 0 <= i < j < |r| ensures Precedes(order, r[i], r[j]) {
      if i == 0 {
        assert r[j] == t[j - 1];
      } else {
        assert r[i] == t[i - 1] && r[j] == t[j - 1];
      }
    }
  }

  /** When `p` goes after the head of a sorted `s`, that head may precede
      everything in the insertion into the tail. */
  lemma HeadPrecedesInserted(order: Order, p: Post, s: seq<Post>, x: Post)
    requires Sorted(order, s) && s != [] && !Precedes(order, p, s[0])
    requires x in multiset(Insert(order, p, s[1..]))
    ensures Precedes(order, s[0], x)
  {
    if x != p {
      assert x in multiset(s[1..]);
      var k :| 0 <= k < |s[1..]| && s[1..][k] == x;
      assert s[k + 1] == x;
    }
  }

  /** Stable sort of `s` in `order`. */
  function SortBy(order: Order, s: seq<Post>): (r: seq<Post>)
    ensures Sorted(order, r)
    ensures multiset(r) == multiset(s)
    ensures |r| == |s|
  {
    if s == [] then []
    else
      assert s == [s[0]] + s[1..];
      InsertSorted(order, s[0], SortBy(order, s[1..]));
      Insert(order, s[0], SortBy(order, s[1..]))
  }

  /** `x` alone if it is dated `d`, and nothing otherwise. */
  function Dated(x: Post, d: int): seq<Post> {
    if x.published == d then [x] else []
  }

  /** The posts of `s` dated `d`, in their order in `s`. */
  function OfDate(s: seq<Post>, d: int): seq<Post> {
    if s == [] then [] else Dated(s[0], d) + OfDate(s[1..], d)
  }

  /** Inserting `p` puts it before every post of its own date and leaves
      the order of the other posts of each date alone. */
  lemma {:induction false} InsertOfDate(order: Order, p: Post, s: seq<Post>, d: int)
    ensures OfDate(Insert(order, p, s), d) == Dated(p, d) + OfDate(s, d)
    decreases |s|, 1
  {
    if s == [] {
      OfDateCons(p, [], d);
    } else if Precedes(order, p, s[0]) {
      OfDateCons(p, s, d);
    } else {
      InsertOfDateAfterHead(order, p, s, d);
    }
  }

  /** The case where `p` goes after the head of `s`. */
  lemma {:induction false} InsertOfDateAfterHead(order: Order, p: Post, s: seq<Post>, d: int)
    requires s != [] && !Precedes(order, p, s[0])
    ensures OfDate(Insert(order, p, s), d) == Dated(p, d) + OfDate(s, d)
    decreases |s|, 0
  {
    var rest := Insert(order, p, s[1..]);
    var tail := OfDate(s[1..], d);
    assert p.published != s[0].published;
    calc {
      OfDate(Insert(order, p, s), d);
    == { assert Insert(order, p, s) == [s[0]] + rest; }
      OfDate([s[0]] + rest, d);
    == { OfDateCons(s[0], rest, d); }
      Dated(s[0], d) + OfDate(rest, d);
    == { InsertOfDate(order, p, s[1..], d); }
      Dated(s[0], d) + (Dated(p, d) + tail);
    == { DatedSwap(s[0], p, tail, d); }
      Dated(p, d) + (Dated(s[0], d) + tail);
    ==
      Dated(p, d) + OfDate(s, d);
    }
  }

  /** Posts of different dates cannot both be dated `d`. */
  lemma DatedSwap(x: Post, y: Post, t: seq<Post>, d: int)
    requires x.published != y.published
    ensures Dated(x, d) + (Dated(y, d) + t) == Dated(y, d) + (Dated(x, d) + t)
  {
    assert Dated(x, d) == [] || Dated(y, d) == [];
  }

  lemma OfDateCons(x: Post, t: seq<Post>, d: int)
    ensures OfDate([x] + t, d) == Dated(x, d) + OfDate(t, d)
  {
    assert ([x] + t)[1..] == t;
  }

  /** `SortBy` is stable: for every date, the posts of that date come out
      in the order they went in. */
  lemma {:induction false} SortByStable(order: Order, s: seq<Post>, d: int)
    ensures OfDate(SortBy(order, s), d) == OfDate(s, d)
  {
    if s != [] {
      SortByStable(order, s[1..], d);
      InsertOfDate(order, s[0], SortBy(order, s[1..]), d);
    }
  }

  /** `Vec::truncate(n)` / `take(n)`: the first `n` elements. */
  function Take(s: seq<Post>, n: nat): (r: seq<Post>)
    ensures |r| == if |s| < n then |s| else n
    ensures r == s[..|r|]
  {
    if |s| <= n then s else s[..n]
  }

  /** Keeping the first `n` posts of a newest-first sort keeps the newest
      ones: every post left out is no newer than any post kept. */
  lemma TakeNewest(s: seq<Post>, n: nat)
    ensures var r := Take(SortBy(NewestFirst, s), n);
      && multiset(r) <= multiset(s)
      && forall q | q in s && q !in r :: forall i | 0 <= i < |r| :: q.published <= r[i].published
  {
    var sorted := SortBy(NewestFirst, s);
    var r := Take(sorted, n);
    TakeIsPrefix(sorted, n);
    forall q | q in s && q !in r ensures forall i | 0 <= i < |r| :: q.published <= r[i].published {
      var j := IndexOf(sorted, q);
      LaterNoNewer(sorted, |r|, j);
    }
  }

  /** What is kept is part of what was there. */
  lemma TakeIsPrefix(s: seq<Post>, n: nat)
    ensures multiset(Take(s, n)) <= multiset(s)
  {
    var r := Take(s, n);
    assert s == r + s[|r|..];
  }

  /** A position of a post that occurs in a sequence. */
  lemma IndexOf(s: seq<Post>, q: Post) returns (j: nat)
    requires q in multiset(s)
    ensures j < |s| && s[j] == q
  {
    j :| 0 <= j < |s| && s[j] == q;
  }

  /** In a newest-first sequence, a post at or after position `m` is no
      newer than any post before it. */
  lemma LaterNoNewer(s: seq<Post>, m: nat, j: nat)
    requires Sorted(NewestFirst, s) && m <= j < |s|
    ensures forall i | 0 <= i < m :: s[j].published <= s[i].published
  {
    forall i | 0 <= i < m ensures s[j].published <= s[i].published {
      assert Precedes(NewestFirst, s[i], s[j]);
    }
  }

  /** The first post of a non-empty newest-first sort is at least as new as
      every post. */
  lemma NewestFirstHead(s: seq<Post>)
    requires s != []
    ensures var sorted := SortBy(NewestFirst, s);
      sorted[0] in s && forall q | q in s :: q.published <= sorted[0].published
  {
    var sorted := SortBy(NewestFirst, s);
    assert sorted[0] in multiset(sorted);
    forall q | q in s ensures q.published <= sorted[0].published {
      assert q in multiset(sorted);
      var j :| 0 <= j < |sorted| && sorted[j] == q;
      if j > 0 {
        assert Precedes(NewestFirst, sorted[0], sorted[j]);
      }
    }
  }
}
