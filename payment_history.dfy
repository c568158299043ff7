/** The payment-history page (app/payment/page.tsx): the fetched order records
    narrowed by a search box (matched against the id and the payment method)
    and a status selector whose "everything" value is 'ALL', and the three
    figures shown above them: revenue, number of transactions and the average
    transaction. */
module PaymentHistory {
  import opened Lists
  import opened Text

  /** A row of `orders` as the page reads it. Amounts are exact reals. */
  datatype Payment = Payment(id: string, totalAmount: real, status: string, paymentMethod: string, createdAt: string)

  /** The selector value that shows every status. */
  const EveryStatus: string := "ALL"

  /** The filter callback: the lowercased query occurs in the lowercased id or
      in the lowercased payment method, and the status is the selected one
      (any status under 'ALL'). */
  predicate Matches(p: Payment, query: string, status: string)
  {
    && (Includes(Lower(p.id), Lower(query)) || Includes(Lower(p.paymentMethod), Lower(query)))
    && (status == EveryStatus || p.status == status)
  }

  function Matching(query: string, status: string): Payment -> bool
  {
    (p: Payment) => Matches(p, query, status)
  }

  /** `filteredPayments`, in the order the payments were fetched. */
  function FilterPayments(payments: seq<Payment>, query: string, status: string): (r: seq<Payment>)
    ensures IsSubsequence(r, payments)
    ensures forall p :: p in r <==> p in payments && Matches(p, query, status)
    ensures forall p :: multiset(r)[p] == if Matches(p, query, status) then multiset(payments)[p] else 0
  {
    Filter(payments, Matching(query, status))
  }

  function Amount(p: Payment): real
  {
    p.totalAmount
  }

  /** `totalAmount`: the amounts of the payments added up, never negative when
      no amount is. */
  function Revenue(payments: seq<Payment>): (r: real)
    ensures (forall i :: 0 <= i < |payments| ==> payments[i].totalAmount >= 0.0) ==> r >= 0.0
  {
    assert forall i :: 0 <= i < |payments| ==> Amount(payments[i]) == payments[i].totalAmount;
    Sum(payments, Amount)
  }

  /** The amount of every matching payment, added up directly over all payments
      without building the filtered list. */
  function MatchingRevenue(payments: seq<Payment>, query: string, status: string): real
  {
    if payments == [] then 0.0
    else (if Matches(payments[0], query, status) then payments[0].totalAmount else 0.0)
         + MatchingRevenue(payments[1..], query, status)
  }

  /** The divisor of the average: the number of payments shown, or 1 when none is. */
  function Divisor(count: nat): (d: nat)
    ensures d >= 1
    ensures count > 0 ==> d == count
    ensures count == 0 ==> d == 1
  {
    if count == 0 then 1 else count
  }

  /** The three figures above the table. */
  datatype Stats = Stats(revenue: real, transactions: nat, average: real)

  /** The figures for the payments shown: their revenue, their number, and
      the average, which times a nonzero number gives back the revenue and is
      0 when nothing is shown. */
  function StatsOf(shown: seq<Payment>): (s: Stats)
    ensures s.transactions == |shown| && s.revenue == Revenue(shown)
    ensures s.transactions == 0 ==> s.revenue == 0.0 && s.average == 0.0
    ensures s.transactions > 0 ==> s.average * s.transactions as real == s.revenue
  {
    Stats(Revenue(shown), |shown|, Average(Revenue(shown), |shown|))
  }

  /** The figures over `filteredPayments`: the revenue is that of every
      matching payment, and the average is that revenue over the guarded
      divisor, so it never divides by zero and is 0 when nothing matches. */
  function Summarize(payments: seq<Payment>, query: string, status: string): (s: Stats)
    ensures s.transactions == |FilterPayments(payments, query, status)|
    ensures s.revenue == MatchingRevenue(payments, query, status)
    ensures s.transactions == 0 ==> s == Stats(0.0, 0, 0.0)
    ensures s.average == Average(s.revenue, s.transactions)
  {
    RevenueOfFiltered(payments, query, status);
    StatsOf(FilterPayments(payments, query, status))
  }

  /** The "Average Transaction" figure: the total divided by the divisor
      above. Times a nonzero count it gives back the total; with no
      transaction it is the total itself, divided by 1. */
  function Average(total: real, count: nat): (r: real)
    ensures r * Divisor(count) as real == total
    ensures count > 0 ==> r * count as real == total
    ensures count == 0 ==> r == total
  {
    var n := Divisor(count) as real;
    assert (total / n) * n == total;
    total / n
  }

  /** The revenue of the filtered list is the amount of every matching payment. */
  lemma {:induction false} RevenueOfFiltered(payments: seq<Payment>, query: string, status: string)
    ensures Revenue(FilterPayments(payments, query, status)) == MatchingRevenue(payments, query, status)
  {
    if payments != [] {
      RevenueOfFiltered(payments[1..], query, status);
      var rest := FilterPayments(payments[1..], query, status);
      if Matches(payments[0], query, status) {
        assert FilterPayments(payments, query, status) == [payments[0]] + rest;
        assert ([payments[0]] + rest)[1..] == rest;
      }
    }
  }

  /** The page's initial state (empty query, 'ALL') keeps every payment. */
  lemma InitialViewShowsAllPayments(payments: seq<Payment>)
    ensures FilterPayments(payments, "", "ALL") == payments
  {
    forall i | 0 <= i < |payments|
      ensures Matching("", EveryStatus)(payments[i])
    {
      assert Includes(Lower(payments[i].id), Lower(""));
    }
    FilterKeepsAll(payments, Matching("", EveryStatus));
  }

  /** With a concrete status selected, only payments of that status are shown. */
  lemma StatusNarrows(payments: seq<Payment>, query: string, status: string)
    requires status != "ALL"
    ensures forall i :: 0 <= i < |FilterPayments(payments, query, status)| ==>
      FilterPayments(payments, query, status)[i].status == status
  {
    var r := FilterPayments(payments, query, status);
    forall i | 0 <= i < |r| ensures r[i].status == status {
      assert r[i] in r;
    }
  }
}
