/**
 * The escrow panel of the payments page: which payments a viewer sees, the
 * escrowed and released totals over them, the progress shown for each
 * payment state, and which action buttons a payment offers.
 */
module Escrow {
  import opened Wrappers
  import opened Types
  import opened Seqs

  /** The roles the panel distinguishes. */
  datatype EscrowRole = FarmerView | RetailerView | AdminView

  /**
   * `getRelevantPayments`: every payment when the role or the user is missing
   * (an empty user identifier counts as missing); a farmer sees the payments
   * made to them, a retailer the payments they made, an administrator all.
   * The order of the store's list is kept.
   */
  function RelevantPayments(role: Option<EscrowRole>, userId: Option<string>, payments: seq<Payment>): (r: seq<Payment>)
    ensures IsSubsequence(r, payments)
    ensures role.None? || userId.None? || userId == Some("") || role == Some(AdminView) ==> r == payments
    ensures role == Some(FarmerView) && userId.Some? && userId.value != "" ==>
              forall p :: p in r <==> p in payments && p.payeeId == userId.value
    ensures role == Some(FarmerView) && userId.Some? && userId.value != "" ==>
              forall p :: multiset(r)[p] == if p.payeeId == userId.value then multiset(payments)[p] else 0
    ensures role == Some(RetailerView) && userId.Some? && userId.value != "" ==>
              forall p :: p in r <==> p in payments && p.payerId == userId.value
    ensures role == Some(RetailerView) && userId.Some? && userId.value != "" ==>
              forall p :: multiset(r)[p] == if p.payerId == userId.value then multiset(payments)[p] else 0
  {
    if role.None? || userId.None? || userId.value == "" then
      SubsequenceOfSelf(payments);
      payments
    else
      var id := userId.value;
      match role.value
      case FarmerView => Filter(payments, (p: Payment) => p.payeeId == id)
      case RetailerView => Filter(payments, (p: Payment) => p.payerId == id)
      case AdminView =>
        SubsequenceOfSelf(payments);
        payments
  }

  predicate IsEscrowed(p: Payment) { p.state == Escrowed }
  predicate IsReleased(p: Payment) { p.state == Released }

  /** The amounts of the escrowed payments, added up. */
  function TotalEscrowed(payments: seq<Payment>): int
  {
    Sum(Filter(payments, IsEscrowed), AmountOf)
  }

  /** The amounts of the released payments, added up. */
  function TotalReleased(payments: seq<Payment>): int
  {
    Sum(Filter(payments, IsReleased), AmountOf)
  }

  /**
   * With non-negative amounts, both totals are non-negative and together they
   * never exceed the amount of all the payments shown: no payment is both
   * escrowed and released.
   */
  lemma TotalsBounded(payments: seq<Payment>)
    requires forall i :: 0 <= i < |payments| ==> payments[i].amount >= 0
    ensures 0 <= TotalEscrowed(payments) && 0 <= TotalReleased(payments)
    ensures TotalEscrowed(payments) + TotalReleased(payments) <= Sum(payments, AmountOf)
  {
    var escrowed := Filter(payments, IsEscrowed);
    var released := Filter(payments, IsReleased);
    assert forall i :: 0 <= i < |escrowed| ==> escrowed[i] in payments;
    assert forall i :: 0 <= i < |released| ==> released[i] in payments;
    SumNonNegative(escrowed, AmountOf);
    SumNonNegative(released, AmountOf);
    SumDisjointBound(payments, AmountOf, IsEscrowed, IsReleased);
  }

  /**
   * `getPaymentProgress`: the progress bar's percentage for a payment's
   * state. The payment card's `getProgress` is the same mapping.
   */
  function Progress(st: PaymentState): (n: int)
    ensures 0 < n <= 100
    ensures n == 100 <==> st == Released
  {
    match st
    case Escrowed => 50
    case Released => 100
    case Refunded => 25
    case Disputed => 75
  }

  /** "Release Funds" is offered for an escrowed payment viewed by an administrator. */
  predicate ShowsReleaseFunds(p: Payment, role: Option<EscrowRole>)
  {
    p.state == Escrowed && role == Some(AdminView)
  }

  /** "Track Delivery" is offered for every escrowed payment. */
  predicate ShowsTrackDelivery(p: Payment)
  {
    p.state == Escrowed
  }

  /**
   * Funds can only be released from escrow, by an administrator, and such a
   * payment can also be tracked. Over the payments the panel lists, an
   * administrator is offered "Release Funds" on exactly the escrowed ones, in
   * list order, and every other viewer on none.
   */
  lemma ReleaseButtonGuard(p: Payment, role: Option<EscrowRole>, userId: Option<string>, payments: seq<Payment>)
    ensures ShowsReleaseFunds(p, role) <==> ShowsTrackDelivery(p) && role == Some(AdminView)
    ensures ShowsReleaseFunds(p, role) ==> Progress(p.state) == 50
    ensures role == Some(AdminView) ==>
              Filter(RelevantPayments(role, userId, payments), (q: Payment) => ShowsReleaseFunds(q, role)) ==
              Filter(payments, IsEscrowed)
    ensures role != Some(AdminView) ==>
              Filter(RelevantPayments(role, userId, payments), (q: Payment) => ShowsReleaseFunds(q, role)) == []
  {
    if role == Some(AdminView) {
      FilterCongruent(payments, (q: Payment) => ShowsReleaseFunds(q, role), IsEscrowed);
    }
  }
}
