/** List helpers the views share: order-preserving filtering (Array.filter)
    and the newest-first sort by creation time that three views apply
    (Array.sort with comparator b.createdAt - a.createdAt, which is stable). */
module Listing {
  import opened Types

  function Filter(s: seq<Order>, p: Order -> bool): (r: seq<Order>)
    ensures |r| <= |s|
    ensures forall x :: x in r <==> x in s && p(x)
    ensures forall i :: 0 <= i < |r| ==> p(r[i])
  {
    if s == [] then []
    else (if p(s[0]) then [s[0]] else []) + Filter(s[1..], p)
  }

  /** Filtering distributes over concatenation: the kept elements of `a`
      come before those of `b`, so the input's order is kept. */
  lemma {:induction false} FilterAppend(a: seq<Order>, b: seq<Order>, p: Order -> bool)
    ensures Filter(a + b, p) == Filter(a, p) + Filter(b, p)
  {
    if a == [] {
      assert a + b == b;
    } else {
      assert (a + b)[0] == a[0] && (a + b)[1..] == a[1..] + b;
      FilterAppend(a[1..], b, p);
    }
  }

  /** The first element kept is the first element of `s` the predicate accepts. */
  lemma {:induction false} FilterFirst(s: seq<Order>, p: Order -> bool, k: nat)
    requires k < |s| && p(s[k])
    requires forall i :: 0 <= i < k ==> !p(s[i])
    ensures Filter(s, p) != [] && Filter(s, p)[0] == s[k]
  {
    if k > 0 {
      FilterFirst(s[1..], p, k - 1);
    }
  }

  /** Two filters that split `s` (exactly one of them accepts each element)
      together keep every element exactly once. */
  lemma {:induction false} FilterSplit(s: seq<Order>, p: Order -> bool, q: Order -> bool)
    requires forall i :: 0 <= i < |s| ==> (p(s[i]) <==> !q(s[i]))
    ensures multiset(Filter(s, p)) + multiset(Filter(s, q)) == multiset(s)
  {
    if s != [] {
      var x, tail := s[0], s[1..];
      forall i | 0 <= i < |tail| ensures p(tail[i]) <==> !q(tail[i]) {
        assert tail[i] == s[i + 1];
      }
      FilterSplit(tail, p, q);
      assert s == [x] + tail;
      if p(x) {
        assert Filter(s, p) == [x] + Filter(tail, p);
        assert Filter(s, q) == [] + Filter(tail, q);
      } else {
        assert Filter(s, p) == [] + Filter(tail, p);
        assert Filter(s, q) == [x] + Filter(tail, q);
      }
    }
  }

  /** Non-increasing by creation time. */
  predicate NewestFirst(s: seq<Order>) {
    forall i, j :: 0 <= i < j < |s| ==> s[i].createdAt >= s[j].createdAt
  }

  /** Prepending an order no older than the head keeps a list newest-first. */
  lemma ConsNewest(x: Order, s: seq<Order>)
    requires NewestFirst(s)
    requires s == [] || x.createdAt >= s[0].createdAt
    ensures NewestFirst([x] + s)
  {
    var r := [x] + s;
    forall i, j | 0 <= i < j < |r| ensures r[i].createdAt >= r[j].createdAt {
      if i == 0 {
        assert r[j] == s[j - 1];
        assert s[0].createdAt >= s[j - 1].createdAt || j == 1;
      } else {
        assert r[i] == s[i - 1] && r[j] == s[j - 1];
      }
    }
  }

  /** A suffix of a newest-first list is newest-first, and the head is no
      older than the second element. */
  lemma NewestTail(s: seq<Order>)
    requires NewestFirst(s) && s != []
    ensures NewestFirst(s[1..])
    ensures |s| > 1 ==> s[0].createdAt >= s[1].createdAt
  {
  }

  /** Putting the head back in front of a tail that gained `o`. */
  lemma ConsMultiset(s: seq<Order>, rest: seq<Order>, o: Order)
    requires s != [] && multiset(rest) == multiset(s[1..]) + multiset{o}
    ensures multiset([s[0]] + rest) == multiset(s) + multiset{o}
  {
    assert s == [s[0]] + s[1..];
  }

  /** Puts `o` in front of the first entry that is not newer than it. */
  function InsertNewest(o: Order, s: seq<Order>): (r: seq<Order>)
    requires NewestFirst(s)
    ensures NewestFirst(r)
    ensures multiset(r) == multiset(s) + multiset{o}
    ensures |r| == |s| + 1
    ensures r[0] == o || (s != [] && r[0] == s[0])
  {
    if s == [] then [o]
    else if o.createdAt >= s[0].createdAt then
      ConsNewest(o, s);
      [o] + s
    else
      var x, tail := s[0], s[1..];
      NewestTail(s);
      var rest := InsertNewest(o, tail);
      ConsNewest(x, rest);
      ConsMultiset(s, rest, o);
      [x] + rest
  }

  function SortNewestFirst(s: seq<Order>): (r: seq<Order>)
    ensures NewestFirst(r)
    ensures multiset(r) == multiset(s)
    ensures |r| == |s|
  {
    if s == [] then []
    else
      assert s == [s[0]] + s[1..];
      InsertNewest(s[0], SortNewestFirst(s[1..]))
  }

  /** Selects the orders created at time `t`. */
  function CreatedAt(t: int): Order -> bool {
    (o: Order) => o.createdAt == t
  }

  /** Filtering a sequence with a known first element. */
  lemma FilterCons(x: Order, s: seq<Order>, p: Order -> bool)
    ensures Filter([x] + s, p) == (if p(x) then [x] else []) + Filter(s, p)
  {
    assert ([x] + s)[1..] == s;
  }

  /** An order strictly older than the head goes after it. */
  lemma InsertBehindHead(o: Order, s: seq<Order>)
    requires NewestFirst(s) && s != [] && o.createdAt < s[0].createdAt
    ensures InsertNewest(o, s) == [s[0]] + InsertNewest(o, s[1..])
  {
  }

  /** Two pieces of which at most one is non-empty commute. */
  lemma SwapWhenOneEmpty(head: seq<Order>, mine: seq<Order>, rest: seq<Order>)
    requires head == [] || mine == []
    ensures head + (mine + rest) == mine + (head + rest)
  {
    if head == [] {
      assert head + (mine + rest) == mine + rest;
      assert head + rest == rest;
    } else {
      assert mine + rest == rest;
      assert mine + (head + rest) == head + rest;
    }
  }

  lemma {:induction false} InsertKeepsTies(o: Order, s: seq<Order>, t: int)
    requires NewestFirst(s)
    ensures Filter(InsertNewest(o, s), CreatedAt(t))
            == (if o.createdAt == t then [o] else []) + Filter(s, CreatedAt(t))
  {
    var p := CreatedAt(t);
    if s == [] {
    } else if o.createdAt >= s[0].createdAt {
      FilterCons(o, s, p);
    } else {
      var x, tail := s[0], s[1..];
      var rest := InsertNewest(o, tail);
      InsertBehindHead(o, s);
      InsertKeepsTies(o, tail, t);
      FilterCons(x, rest, p);
      assert s == [x] + tail;
      FilterCons(x, tail, p);
      // o is strictly older than s[0], so at most one of them was created at t
      SwapWhenOneEmpty(if p(x) then [x] else [], if o.createdAt == t then [o] else [], Filter(tail, p));
    }
  }

  /** The sort is stable: orders created at the same time keep their
      original relative order. */
  lemma {:induction false} SortIsStable(s: seq<Order>, t: int)
    ensures Filter(SortNewestFirst(s), CreatedAt(t)) == Filter(s, CreatedAt(t))
  {
    if s != [] {
      SortIsStable(s[1..], t);
      InsertKeepsTies(s[0], SortNewestFirst(s[1..]), t);
    }
  }
}
