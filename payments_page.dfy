/**
 * `src/pages/Payments/PaymentsPage.tsx`: the status filter of the payment list, the total of
 * successful payments, the summary counts and which payments offer a receipt.
 */
module Payments {
  import opened Lists

  /** The fields of a payment the page computes with; amounts are whole rupees. */
  datatype Payment = Payment(id: int, amount: int, status: string)

  const AllFilter := "all"
  const SuccessStatus := "SUCCESS"
  const FailedStatus := "FAILED"

  function Amount(p: Payment): int { p.amount }

  predicate Succeeded(p: Payment) { p.status == SuccessStatus }
  predicate Failed(p: Payment) { p.status == FailedStatus }
  predicate NotSucceeded(p: Payment) { !Succeeded(p) }

  function StatusOf(p: Payment): string { p.status }

  /** `filteredPayments`: the history's status filter over the payments. */
  function FilteredPayments(ps: seq<Payment>, filter: string): (r: seq<Payment>)
    ensures filter == "all" ==> r == ps
    ensures filter != "all" ==> forall i :: 0 <= i < |r| ==> r[i] in ps && r[i].status == filter
    ensures filter != "all" ==> forall i :: 0 <= i < |ps| && ps[i].status == filter ==> ps[i] in r
  {
    StatusFiltered(ps, StatusOf, filter)
  }

  /** The filter keeps the payments in their original order. */
  lemma FilteredPaymentsAppend(a: seq<Payment>, b: seq<Payment>, filter: string)
    ensures FilteredPayments(a + b, filter) == FilteredPayments(a, filter) + FilteredPayments(b, filter)
  {
    StatusFilteredAppend(a, b, StatusOf, filter);
  }

  /** `totalAmount`: the amounts of the successful payments, whatever filter is selected. */
  function TotalAmount(ps: seq<Payment>): int {
    SumOf(Filter(ps, Succeeded), Amount)
  }

  /** The total is the sum of the list the SUCCESS filter shows. */
  lemma TotalIsSumOfSuccessView(ps: seq<Payment>)
    ensures TotalAmount(ps) == SumOf(FilteredPayments(ps, SuccessStatus), Amount)
  {
    var keep := StatusKeep(StatusOf, SuccessStatus);
    forall x: Payment
      ensures Succeeded(x) == keep(x)
    {
      assert keep(x) == (SuccessStatus == "all" || StatusOf(x) == SuccessStatus);
    }
    FilterSame(ps, Succeeded, keep);
  }

  lemma {:induction false} FilterSame<T>(s: seq<T>, p: T -> bool, q: T -> bool)
    requires forall x :: p(x) == q(x)
    ensures Filter(s, p) == Filter(s, q)
  {
    if s != [] {
      FilterSame(s[1..], p, q);
    }
  }

  /** The total adds up over the two halves of a list; payments that did not succeed add nothing. */
  lemma {:induction false} TotalAmountAppend(a: seq<Payment>, b: seq<Payment>)
    ensures TotalAmount(a + b) == TotalAmount(a) + TotalAmount(b)
  {
    FilterAppend(a, b, Succeeded);
    SumOfAppend(Filter(a, Succeeded), Filter(b, Succeeded), Amount);
  }

  /** The sum of every amount exceeds the total by exactly the amounts that did not succeed. */
  lemma AllAmountsSplitByStatus(ps: seq<Payment>)
    ensures SumOf(ps, Amount) == TotalAmount(ps) + SumOf(Filter(ps, NotSucceeded), Amount)
  {
    SumOfSplit(ps, Amount, Succeeded, NotSucceeded);
  }

  /** With no successful payment the total is zero. */
  lemma {:induction false} NoSuccessNoTotal(ps: seq<Payment>)
    requires forall i :: 0 <= i < |ps| ==> !Succeeded(ps[i])
    ensures TotalAmount(ps) == 0
  {
    if ps != [] {
      NoSuccessNoTotal(ps[1..]);
      assert Filter(ps, Succeeded) == Filter(ps[1..], Succeeded);
    }
  }

  /** The "Successful" and "Failed" cards. */
  function CountStatus(ps: seq<Payment>, status: string): (n: nat)
    ensures n <= |ps|
  {
    |Filter(ps, (p: Payment) => p.status == status)|
  }

  /** The two cards never claim more payments than the "Total Payments" card. */
  lemma SuccessAndFailedWithinTotal(ps: seq<Payment>)
    ensures CountStatus(ps, SuccessStatus) + CountStatus(ps, FailedStatus) <= |ps|
  {
    FilterDisjointCounts(ps, (p: Payment) => p.status == SuccessStatus, (p: Payment) => p.status == FailedStatus);
  }

  /** A receipt button is offered for a payment. */
  predicate ReceiptOffered(p: Payment) {
    p.status == SuccessStatus
  }

  /** Every listed payment with a receipt button is one of the payments the total sums. */
  lemma ReceiptsAreCounted(ps: seq<Payment>, i: int)
    requires 0 <= i < |ps|
    ensures ReceiptOffered(ps[i]) <==> ps[i] in Filter(ps, Succeeded)
  {
  }
}
