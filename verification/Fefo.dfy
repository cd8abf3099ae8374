/** First expired, first out: the allocation loop takes from the lots in the
    order of the allocation query and never leaves an earlier lot unexhausted. */
module Fefo {
  import opened Domain
  import opened InventoryRules
  import opened Totals

  /** The allocation rows the inner loop inserts for `q` units of the offers. */
  function Greedy(r: Uuid, offers: seq<Offer>, q: int): seq<Alloc>
    decreases |offers|
  {
    if offers == [] || Min(q, offers[0].free) <= 0 then []
    else
      var n := Min(q, offers[0].free);
      [Alloc(r, offers[0].stock, n)] + Greedy(r, offers[1..], q - n)
  }

  function SumFree(offers: seq<Offer>): int {
    if offers == [] then 0 else offers[0].free + SumFree(offers[1..])
  }

  function SumRows(rows: seq<Alloc>): int {
    if rows == [] then 0 else rows[0].quantity + SumRows(rows[1..])
  }

  function Sum(ns: seq<int>): int {
    if ns == [] then 0 else ns[0] + Sum(ns[1..])
  }

  ghost predicate AllFree(offers: seq<Offer>) {
    forall i | 0 <= i < |offers| :: offers[i].free > 0
  }

  /** The rows follow the offers one by one, each within what is free. */
  lemma {:induction false} GreedyFollows(r: Uuid, offers: seq<Offer>, q: int)
    requires AllFree(offers) && 0 <= q
    ensures |Greedy(r, offers, q)| <= |offers|
    ensures forall i | 0 <= i < |Greedy(r, offers, q)| ::
              var a := Greedy(r, offers, q)[i];
              a.reservation == r && a.stock == offers[i].stock && 0 < a.quantity <= offers[i].free
    decreases |offers|
  {
    if offers != [] && q > 0 {
      GreedyFollows(r, offers[1..], q - Min(q, offers[0].free));
    }
  }

  /** After the first `k` lots, exactly as much is taken as is free there, up to the request. */
  lemma {:induction false} GreedyPrefix(r: Uuid, offers: seq<Offer>, q: int, k: nat)
    requires AllFree(offers) && 0 <= q && k <= |offers|
    ensures var rows := Greedy(r, offers, q);
            SumRows(rows[..Min(k, |rows|)]) == Min(q, SumFree(offers[..k]))
    decreases |offers|
  {
    var rows := Greedy(r, offers, q);
    SumFreeNonNegative(offers[..k]);
    if k > 0 && q > 0 {
      var n := Min(q, offers[0].free);
      var rest := Greedy(r, offers[1..], q - n);
      GreedyPrefix(r, offers[1..], q - n, k - 1);
      assert offers[..k][1..] == offers[1..][..k - 1];
      assert rows[..Min(k, |rows|)] == [rows[0]] + rest[..Min(k - 1, |rest|)];
      SumFreeNonNegative(offers[1..][..k - 1]);
    }
  }

  lemma {:induction false} SumFreeNonNegative(offers: seq<Offer>)
    requires AllFree(offers)
    ensures SumFree(offers) >= 0
  {
    if offers != [] {
      SumFreeNonNegative(offers[1..]);
    }
  }

  lemma GreedyTotal(r: Uuid, offers: seq<Offer>, q: int)
    requires AllFree(offers) && 0 <= q
    ensures SumRows(Greedy(r, offers, q)) == Min(q, SumFree(offers))
  {
    var rows := Greedy(r, offers, q);
    GreedyFollows(r, offers, q);
    GreedyPrefix(r, offers, q, |offers|);
    assert offers[..|offers|] == offers && rows[..|rows|] == rows;
  }

  /** A way to cover a request: so many units from each offer. */
  ghost predicate Covers(ns: seq<int>, offers: seq<Offer>, q: int) {
    |ns| == |offers| && Sum(ns) == q && forall i | 0 <= i < |ns| :: 0 <= ns[i] <= offers[i].free
  }

  /** On every prefix of the order, the loop takes at least as much as any other
      allocation of the same quantity, and a later lot is touched only after
      every earlier one is exhausted. */
  lemma FefoDominates(r: Uuid, offers: seq<Offer>, q: int, other: seq<int>, k: nat)
    requires AllFree(offers) && 0 <= q && k <= |offers| && Covers(other, offers, q)
    ensures var rows := Greedy(r, offers, q);
            && SumRows(rows) == q
            && SumRows(rows[..Min(k, |rows|)]) >= Sum(other[..k])
            && |rows| <= |offers|
            && forall i | 0 <= i < |rows| - 1 :: rows[i].quantity == offers[i].free
  {
    GreedyPrefix(r, offers, q, k);
    GreedyTotal(r, offers, q);
    CoverPrefix(other, offers, q, k);
    CoverPrefix(other, offers, q, |offers|);
    assert offers[..|offers|] == offers && other[..|other|] == other;
    GreedyExhausts(r, offers, q);
  }

  lemma {:induction false} CoverPrefix(ns: seq<int>, offers: seq<Offer>, q: int, k: nat)
    requires Covers(ns, offers, q) && k <= |ns|
    ensures 0 <= Sum(ns[..k]) <= Min(q, SumFree(offers[..k]))
  {
    if k == 0 {
      if ns != [] {
        CoverPrefix(ns[1..], offers[1..], q - ns[0], 0);
      }
    } else {
      CoverPrefix(ns[1..], offers[1..], q - ns[0], k - 1);
      assert ns[..k][1..] == ns[1..][..k - 1] && offers[..k][1..] == offers[1..][..k - 1];
    }
  }

  lemma {:induction false} GreedyExhausts(r: Uuid, offers: seq<Offer>, q: int)
    requires AllFree(offers) && 0 <= q
    ensures var rows := Greedy(r, offers, q);
            |rows| <= |offers| && forall i | 0 <= i < |rows| - 1 :: rows[i].quantity == offers[i].free
    decreases |offers|
  {
    if offers != [] && q > 0 {
      var n := Min(q, offers[0].free);
      var rest := Greedy(r, offers[1..], q - n);
      GreedyExhausts(r, offers[1..], q - n);
      assert Greedy(r, offers, q) == [Alloc(r, offers[0].stock, n)] + rest;
      forall i | 0 <= i < |rest|
        ensures Greedy(r, offers, q)[i].quantity == offers[i].free
      {
        assert i > 0 ==> rest[i - 1].quantity == offers[1..][i - 1].free;
        assert i == 0 ==> q - n > 0;
      }
    }
  }

  // ----- the allocation query -----

  ghost predicate Lists(offers: seq<Offer>, m: map<Uuid, Lot>) {
    forall i | 0 <= i < |offers| ::
      && offers[i].stock in m
      && offers[i].free == m[offers[i].stock].quantity - m[offers[i].stock].reserved
  }

  /** Lot `a` comes before lot `b`: a dated lot before an undated one and before a later date;
      of equal dates the older lot; of equal age the smaller id. */
  predicate ComesBefore(a: Lot, i: Uuid, b: Lot, j: Uuid) {
    match (a.expiration, b.expiration)
    case (Some(x), Some(y)) => x < y || (x == y && (a.created < b.created || (a.created == b.created && i < j)))
    case (Some(_), None) => true
    case (None, Some(_)) => false
    case (None, None) => a.created < b.created || (a.created == b.created && i < j)
  }

  lemma SoonerComesBefore(a: Lot, i: Uuid, b: Lot, j: Uuid)
    ensures Sooner(a, i, b, j) <==> ComesBefore(a, i, b, j)
  {
  }

  ghost predicate SoonestFirst(offers: seq<Offer>, m: map<Uuid, Lot>)
    requires Lists(offers, m)
  {
    forall i, j | 0 <= i < j < |offers| ::
      && offers[i].stock != offers[j].stock
      && ComesBefore(m[offers[i].stock], offers[i].stock, m[offers[j].stock], offers[j].stock)
  }

  /** The first lot of a table comes before all others. */
  lemma FirstComesBefore(m: map<Uuid, Lot>, id: Uuid)
    requires First(m, id)
    ensures forall k | k in m && k != id :: ComesBefore(m[id], id, m[k], k)
  {
    forall k | k in m && k != id ensures ComesBefore(m[id], id, m[k], k) { SoonerComesBefore(m[id], id, m[k], k); }
    hide Sooner, ComesBefore;
  }

  /** The query returns every lot of the table once, soonest first, with its unreserved units. */
  lemma {:induction false} OffersList(m: map<Uuid, Lot>)
    ensures Lists(Offers(m), m) && SoonestFirst(Offers(m), m)
    decreases |m|
  {
    hide Sooner, ComesBefore, First;
    if m != map[] {
      var id := FirstOf(m);
      FirstComesBefore(m, id);
      OffersList(m - {id});
    }
  }

  lemma {:induction false} OffersComplete(m: map<Uuid, Lot>, id: Uuid)
    requires id in m
    ensures exists i | 0 <= i < |Offers(m)| :: Offers(m)[i].stock == id
    decreases |m|
  {
    var first := FirstOf(m);
    if id == first {
      assert Offers(m)[0].stock == id;
    } else {
      OffersComplete(m - {first}, id);
      var i :| 0 <= i < |Offers(m - {first})| && Offers(m - {first})[i].stock == id;
      assert Offers(m)[i + 1].stock == id;
    }
  }

  lemma {:induction false} OffersTotal(m: map<Uuid, Lot>)
    ensures SumFree(Offers(m)) == Total(m, Unreserved()).units
    decreases |m|
  {
    hide First, Sooner, Total;
    if m == map[] {
      assert Total(map[], Unreserved()) == NOTHING by { TotalOfNothing(Unreserved()); }
    } else {
      var id := FirstOf(m);
      OffersTotal(m - {id});
      TotalWithout(m, id, Unreserved());
    }
  }
}
