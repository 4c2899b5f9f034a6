/**
 * The store's read-only queries: the trust-score blend, the per-role,
 * per-farmer and per-transporter filters, product lookup, and a product's
 * event timeline in timestamp order. None of them changes the state.
 */
module StoreUtils {
  import opened Wrappers
  import opened Types
  import opened Seqs

  /** The first user with identifier `id` (`users.find`). */
  function FindUser(users: seq<UserProfile>, id: string): (r: Option<UserProfile>)
    ensures r.Some? ==> r.value in users && r.value.id == id
    ensures r.Some? ==> exists i :: 0 <= i < |users| && users[i] == r.value &&
                                    forall j :: 0 <= j < i ==> users[j].id != id
    ensures r.None? <==> forall u :: u in users ==> u.id != id
  {
    Find(users, (u: UserProfile) => u.id == id)
  }

  /** The ratings whose target is the user `id`. */
  function RatingsFor(ratings: seq<Rating>, id: string): seq<Rating>
  {
    Filter(ratings, (r: Rating) => r.targetId == id)
  }

  /** The total of the stars of `rs`. */
  function StarTotal(rs: seq<Rating>): int
  {
    Sum(rs, (r: Rating) => r.stars)
  }

  /** `Math.round` on an exact real: the nearest integer, a half rounded upwards. */
  function Round(x: real): (n: int)
    ensures n as real - 0.5 <= x < n as real + 0.5
  {
    (x + 0.5).Floor
  }

  /**
   * The blended score before rounding, from the star total and number of the
   * user's ratings and the user's delivery counters: 70% of the mean rating
   * rescaled from 1..5 to 0..100 plus 30% of the delivery success rate, or of
   * the rescaled rating itself when the user has no transactions.
   */
  function Blend(starTotal: int, count: nat, successful: int, transactions: int): real
    requires count > 0
  {
    var average := starTotal as real / count as real;
    var baseScore := average / 5.0 * 100.0;
    var successRate := if transactions > 0
                       then successful as real / transactions as real * 100.0
                       else baseScore;
    baseScore * 0.7 + successRate * 0.3
  }

  /**
   * `calculateTrustScore`: 0 for an unknown user; the stored score when
   * nobody has rated the user; otherwise the blend of ratings and delivery
   * record, rounded.
   */
  function TrustScore(userId: string, s: AppState): int
  {
    match FindUser(s.users, userId)
    case None => 0
    case Some(u) =>
      var rs := RatingsFor(s.ratings, userId);
      if |rs| == 0 then u.trustScore
      else Round(Blend(StarTotal(rs), |rs|, u.successfulDeliveries, u.totalTransactions))
  }

  /** Stars between 1 and 5 add up to between one and five times the number of ratings. */
  lemma {:induction false} StarTotalBounds(rs: seq<Rating>)
    requires forall i :: 0 <= i < |rs| ==> 1 <= rs[i].stars <= 5
    ensures |rs| <= StarTotal(rs) <= 5 * |rs|
  {
    if rs != [] {
      StarTotalBounds(rs[1..]);
    }
  }

  /** A quotient by a positive divisor keeps the bounds its dividend has relative to the divisor. */
  lemma DivBounds(a: real, b: real, lo: real, hi: real)
    requires b > 0.0 && lo * b <= a <= hi * b
    ensures lo <= a / b <= hi
  {
    var q := a / b;
    assert q * b == a;
    assert (q - lo) * b == a - lo * b;
    assert (hi - q) * b == hi * b - a;
  }

  /** A mean of stars in 1..5 rescales to 20..100, and the blend then lies in 14..100. */
  lemma BlendInRange(starTotal: int, count: nat, successful: int, transactions: int)
    requires count > 0 && count <= starTotal <= 5 * count
    requires 0 <= successful <= transactions
    ensures 14.0 <= Blend(starTotal, count, successful, transactions) <= 100.0
  {
    DivBounds(starTotal as real, count as real, 1.0, 5.0);
    if transactions > 0 {
      DivBounds(successful as real, transactions as real, 0.0, 1.0);
    }
  }

  /**
   * With stored scores in 0..100, stars in 1..5 and no more successful
   * deliveries than transactions, the trust score lies in 0..100; once the
   * user has been rated it is at least 14 (70% of the lowest rescaled rating, 20).
   */
  lemma TrustScoreInRange(userId: string, s: AppState)
    requires forall u :: u in s.users ==> 0 <= u.trustScore <= 100
    requires forall u :: u in s.users ==> 0 <= u.successfulDeliveries <= u.totalTransactions
    requires forall r :: r in s.ratings ==> 1 <= r.stars <= 5
    ensures 0 <= TrustScore(userId, s) <= 100
    ensures FindUser(s.users, userId).Some? && |RatingsFor(s.ratings, userId)| > 0 ==>
              14 <= TrustScore(userId, s)
  {
    match FindUser(s.users, userId)
    case None =>
    case Some(u) =>
      var rs := RatingsFor(s.ratings, userId);
      if |rs| > 0 {
        StarTotalBounds(rs);
        BlendInRange(StarTotal(rs), |rs|, u.successfulDeliveries, u.totalTransactions);
      }
  }

  /**
   * A worked example: a transporter with 9 successful deliveries out of
   * 10, rated 5 and 3 stars, scores round(0.7 * 80 + 0.3 * 90) = 83.
   */
  lemma TrustScoreExample(t: UserProfile, r1: Rating, r2: Rating)
    requires t.totalTransactions == 10 && t.successfulDeliveries == 9
    requires r1.targetId == t.id && r1.stars == 5
    requires r2.targetId == t.id && r2.stars == 3
    ensures TrustScore(t.id, AppState(None, [t], [], [], [], [r1, r2], [], false, None)) == 83
  {
    var rs := RatingsFor([r1, r2], t.id);
    assert [r1, r2][1..] == [r2];
    assert rs == [r1, r2];
    var stars := (r: Rating) => r.stars;
    assert [r2][1..] == [];
    assert Sum([r2], stars) == stars(r2) + Sum([], stars) == 3;
    assert Sum(rs, stars) == stars(r1) + Sum([r2], stars) == 8;
    assert Blend(8, 2, 9, 10) == 83.0;
  }

  /** `getUsersByRole`: the users with that role, in list order. */
  function UsersByRole(role: UserRole, s: AppState): (r: seq<UserProfile>)
    ensures IsSubsequence(r, s.users)
    ensures forall u :: u in r <==> u in s.users && u.role == role
    ensures forall u :: multiset(r)[u] == if u.role == role then multiset(s.users)[u] else 0
  {
    Filter(s.users, (u: UserProfile) => u.role == role)
  }

  /** `getProductsByFarmer`: the products owned by that farmer, in list order. */
  function ProductsByFarmer(farmerId: string, s: AppState): (r: seq<Product>)
    ensures IsSubsequence(r, s.products)
    ensures forall p :: p in r <==> p in s.products && p.farmerId == farmerId
    ensures forall p :: multiset(r)[p] == if p.farmerId == farmerId then multiset(s.products)[p] else 0
  {
    Filter(s.products, (p: Product) => p.farmerId == farmerId)
  }

  /** `getShipmentsByTransporter`: the shipments assigned to that transporter, in list order. */
  function ShipmentsByTransporter(transporterId: string, s: AppState): (r: seq<Shipment>)
    ensures IsSubsequence(r, s.shipments)
    ensures forall x :: x in r <==> x in s.shipments && x.transporterId == Some(transporterId)
    ensures forall x :: multiset(r)[x] == if x.transporterId == Some(transporterId) then multiset(s.shipments)[x] else 0
  {
    Filter(s.shipments, (x: Shipment) => x.transporterId == Some(transporterId))
  }

  /** `getProductById`: the first product with that identifier, or none. */
  function ProductById(productId: string, s: AppState): (r: Option<Product>)
    ensures r.Some? ==> r.value in s.products && r.value.id == productId
    ensures r.Some? ==> exists i :: 0 <= i < |s.products| && s.products[i] == r.value &&
                                    forall j :: 0 <= j < i ==> s.products[j].id != productId
    ensures r.None? <==> forall p :: p in s.products ==> p.id != productId
  {
    Find(s.products, (p: Product) => p.id == productId)
  }

  /** Events in non-decreasing timestamp order. */
  predicate SortedByTime(es: seq<Event>)
  {
    forall i, j :: 0 <= i < j < |es| ==> es[i].timestamp <= es[j].timestamp
  }

  /** Places `e` before the first event of `es` that is not earlier than it. */
  function InsertByTime(e: Event, es: seq<Event>): (r: seq<Event>)
    ensures multiset(r) == multiset(es) + multiset{e}
  {
    if es == [] || e.timestamp <= es[0].timestamp then [e] + es
    else
      assert es == [es[0]] + es[1..];
      [es[0]] + InsertByTime(e, es[1..])
  }

  /** Every event of `es` is stamped no earlier than `b`. */
  predicate NoneEarlier(es: seq<Event>, b: int)
  {
    forall i :: 0 <= i < |es| ==> b <= es[i].timestamp
  }

  /** Inserting an event stamped no earlier than `b` keeps a timeline's lower bound `b`. */
  lemma {:induction false} InsertKeepsBound(e: Event, es: seq<Event>, b: int)
    requires b <= e.timestamp && NoneEarlier(es, b)
    ensures NoneEarlier(InsertByTime(e, es), b)
  {
    if es != [] && e.timestamp > es[0].timestamp {
      InsertKeepsBound(e, es[1..], b);
      assert InsertByTime(e, es) == [es[0]] + InsertByTime(e, es[1..]);
    }
  }

  /** Inserting into a timeline keeps it in timestamp order. */
  lemma {:induction false} InsertKeepsSorted(e: Event, es: seq<Event>)
    requires SortedByTime(es)
    ensures SortedByTime(InsertByTime(e, es))
  {
    if es != [] && e.timestamp > es[0].timestamp {
      InsertKeepsSorted(e, es[1..]);
      InsertKeepsBound(e, es[1..], es[0].timestamp);
    }
  }

  /** The events of `es` stamped `t`, in the order of `es`. */
  function StampedAt(es: seq<Event>, t: int): seq<Event>
  {
    if es == [] then []
    else (if es[0].timestamp == t then [es[0]] else []) + StampedAt(es[1..], t)
  }

  /**
   * Insertion goes in front of every event stamped the same as the inserted
   * one: among the events stamped `t`, the inserted one comes first.
   */
  lemma {:induction false} InsertKeepsTies(e: Event, es: seq<Event>, t: int)
    ensures StampedAt(InsertByTime(e, es), t) ==
            if e.timestamp == t then [e] + StampedAt(es, t) else StampedAt(es, t)
  {
    var r := InsertByTime(e, es);
    if es == [] || e.timestamp <= es[0].timestamp {
      assert r[1..] == es;
    } else {
      InsertKeepsTies(e, es[1..], t);
      assert r[1..] == InsertByTime(e, es[1..]);
    }
  }

  /**
   * `sort((a, b) => a.timestamp - b.timestamp)`: a stable sort by timestamp,
   * written as an insertion sort. Events stamped the same keep the order
   * they have in `es`.
   */
  function SortByTime(es: seq<Event>): (r: seq<Event>)
    ensures multiset(r) == multiset(es)
    ensures SortedByTime(r)
    ensures forall t :: StampedAt(r, t) == StampedAt(es, t)
  {
    if es == [] then []
    else
      assert es == [es[0]] + es[1..];
      var rest := SortByTime(es[1..]);
      InsertKeepsSorted(es[0], rest);
      forall t ensures StampedAt(InsertByTime(es[0], rest), t) == StampedAt(es, t) {
        InsertKeepsTies(es[0], rest, t);
      }
      InsertByTime(es[0], rest)
  }

  /**
   * `getEventsForProduct`: exactly the events attached to the product, each
   * as often as in the log, in non-decreasing timestamp order; empty when no
   * event is attached to it.
   */
  function EventsForProduct(productId: string, s: AppState): (r: seq<Event>)
    ensures SortedByTime(r)
    ensures multiset(r) == multiset(Filter(s.events, (e: Event) => e.productId == Some(productId)))
    ensures forall t :: StampedAt(r, t) == StampedAt(Filter(s.events, (e: Event) => e.productId == Some(productId)), t)
    ensures forall e :: e in r <==> e in s.events && e.productId == Some(productId)
    ensures r == [] <==> forall e :: e in s.events ==> e.productId != Some(productId)
  {
    var attached := Filter(s.events, (e: Event) => e.productId == Some(productId));
    var r := SortByTime(attached);
    assert forall e :: e in r <==> e in attached by {
      forall e ensures e in r <==> e in attached {
        assert e in r <==> e in multiset(r);
      }
    }
    r
  }
}
