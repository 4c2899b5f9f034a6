/**
 * The administrator's reports: counts, distributions and integer sums over
 * the store's users, products, payments and shipments. The averages and
 * percentages the reports also show are floating-point and not modelled.
 */
module Reports {
  import opened Wrappers
  import opened Types
  import opened Seqs

  /** Thirty days in milliseconds: the window of a recent join. */
  const RecentWindow: int := 30 * 24 * 60 * 60 * 1000

  /** How many elements of `s` have key `k`. */
  function Occurrences<T, K(==)>(s: seq<T>, key: T -> K, k: K): nat
  {
    if s == [] then 0
    else Occurrences(s[..|s| - 1], key, k) + (if key(s[|s| - 1]) == k then 1 else 0)
  }

  /** A key occurs exactly when some element has it. */
  lemma {:induction false} OccurrencesPositive<T, K>(s: seq<T>, key: T -> K, k: K)
    ensures Occurrences(s, key, k) > 0 <==> exists i :: 0 <= i < |s| && key(s[i]) == k
  {
    if s != [] {
      var init := s[..|s| - 1];
      OccurrencesPositive(init, key, k);
      if Occurrences(init, key, k) > 0 {
        var i :| 0 <= i < |init| && key(init[i]) == k;
        assert key(s[i]) == k;
      }
      if exists i :: 0 <= i < |s| && key(s[i]) == k {
        var i :| 0 <= i < |s| && key(s[i]) == k;
        if i < |init| {
          assert key(init[i]) == k;
        }
      }
    }
  }

  /** `acc[k] || 0`: a key the distribution never saw counts zero. */
  function CountIn<K>(m: map<K, nat>, k: K): nat
  {
    if k in m then m[k] else 0
  }

  /**
   * `s.reduce((acc, x) => { acc[key(x)] = (acc[key(x)] || 0) + 1; return acc }, {})`:
   * the keys that occur, each with the number of its occurrences.
   */
  method Tally<T, K(==)>(s: seq<T>, key: T -> K) returns (m: map<K, nat>)
    ensures forall k :: k in m <==> exists i :: 0 <= i < |s| && key(s[i]) == k
    ensures forall k :: CountIn(m, k) == Occurrences(s, key, k)
  {
    m := map[];
    var i := 0;
    while i < |s|
      invariant 0 <= i <= |s|
      invariant forall k :: k in m <==> Occurrences(s[..i], key, k) > 0
      invariant forall k :: CountIn(m, k) == Occurrences(s[..i], key, k)
    {
      var k := key(s[i]);
      m := m[k := CountIn(m, k) + 1];
      assert s[..i + 1][..i] == s[..i];
      i := i + 1;
    }
    assert s[..|s|] == s;
    forall k ensures k in m <==> exists i :: 0 <= i < |s| && key(s[i]) == k {
      OccurrencesPositive(s, key, k);
    }
  }

  /** No key is listed twice. */
  predicate Distinct<K(==)>(ks: seq<K>)
  {
    forall i, j :: 0 <= i < j < |ks| ==> ks[i] != ks[j]
  }

  /** The total of a distribution over the keys `ks`. */
  function TotalOver<K>(m: map<K, nat>, ks: seq<K>): int
  {
    if ks == [] then 0 else CountIn(m, ks[0]) + TotalOver(m, ks[1..])
  }

  /** The occurrences of the keys `ks` in `s`, added up. */
  function OccurrenceTotal<T, K(==)>(s: seq<T>, key: T -> K, ks: seq<K>): int
  {
    if ks == [] then 0 else Occurrences(s, key, ks[0]) + OccurrenceTotal(s, key, ks[1..])
  }

  lemma {:induction false} OccurrenceTotalAppend<T, K>(s: seq<T>, x: T, key: T -> K, ks: seq<K>)
    requires Distinct(ks)
    ensures OccurrenceTotal(s + [x], key, ks) == OccurrenceTotal(s, key, ks) + (if key(x) in ks then 1 else 0)
  {
    if ks != [] {
      assert (s + [x])[..|s|] == s;
      OccurrenceTotalAppend(s, x, key, ks[1..]);
      assert key(x) in ks <==> key(x) == ks[0] || key(x) in ks[1..];
      assert key(x) == ks[0] ==> key(x) !in ks[1..];
    }
  }

  /** When every key of `s` is among the distinct keys `ks`, their occurrences add up to `|s|`. */
  lemma {:induction false} OccurrenceTotalIsLength<T, K>(s: seq<T>, key: T -> K, ks: seq<K>)
    requires Distinct(ks)
    requires forall i :: 0 <= i < |s| ==> key(s[i]) in ks
    ensures OccurrenceTotal(s, key, ks) == |s|
  {
    if s == [] {
      OccurrenceTotalEmpty(key, ks);
    } else {
      var init := s[..|s| - 1];
      assert s == init + [s[|s| - 1]];
      OccurrenceTotalIsLength(init, key, ks);
      OccurrenceTotalAppend(init, s[|s| - 1], key, ks);
    }
  }

  lemma {:induction false} OccurrenceTotalEmpty<T, K>(key: T -> K, ks: seq<K>)
    ensures OccurrenceTotal([], key, ks) == 0
  {
    if ks != [] {
      OccurrenceTotalEmpty(key, ks[1..]);
    }
  }

  /** A distribution that counts like `Occurrences` totals like it. */
  lemma {:induction false} TotalOverTally<T, K>(m: map<K, nat>, s: seq<T>, key: T -> K, ks: seq<K>)
    requires forall k :: CountIn(m, k) == Occurrences(s, key, k)
    ensures TotalOver(m, ks) == OccurrenceTotal(s, key, ks)
  {
    if ks != [] {
      TotalOverTally(m, s, key, ks[1..]);
    }
  }

  const AllRoles: seq<UserRole> := [Farmer, Transporter, Retailer, Consumer, Admin]
  const AllStatuses: seq<ProductStatus> := [Registered, PickupScheduled, InTransit, Delivered, Verified, Expired]
  const AllCrops: seq<CropType> := [Paddy, Turmeric, Brinjal, Chili, Groundnut, Sesame, Maize, Coconut, Cashew]

  function RoleOf(u: UserProfile): UserRole { u.role }
  function CategoryOf(p: Product): CropType { p.category }
  function StatusOf(p: Product): ProductStatus { p.status }

  function RoleIndex(role: UserRole): nat
  {
    match role
    case Farmer => 0
    case Transporter => 1
    case Retailer => 2
    case Consumer => 3
    case Admin => 4
  }

  function CropIndex(c: CropType): nat
  {
    match c
    case Paddy => 0
    case Turmeric => 1
    case Brinjal => 2
    case Chili => 3
    case Groundnut => 4
    case Sesame => 5
    case Maize => 6
    case Coconut => 7
    case Cashew => 8
  }

  function StatusIndex(st: ProductStatus): nat
  {
    match st
    case Registered => 0
    case PickupScheduled => 1
    case InTransit => 2
    case Delivered => 3
    case Verified => 4
    case Expired => 5
  }

  /** Every role is listed in `AllRoles`, once. */
  lemma RolesEnumerated()
    ensures Distinct(AllRoles)
    ensures forall role :: 0 <= RoleIndex(role) < |AllRoles| && AllRoles[RoleIndex(role)] == role
  {
    forall i | 0 <= i < |AllRoles| ensures RoleIndex(AllRoles[i]) == i {
      if i == 0 {} else if i == 1 {} else if i == 2 {} else if i == 3 {}
    }
    forall i, j | 0 <= i < j < |AllRoles| ensures AllRoles[i] != AllRoles[j] {
      assert RoleIndex(AllRoles[i]) == i && RoleIndex(AllRoles[j]) == j;
    }
  }

  /** Every crop is listed in `AllCrops`, once. */
  lemma CropsEnumerated()
    ensures Distinct(AllCrops)
    ensures forall c :: 0 <= CropIndex(c) < |AllCrops| && AllCrops[CropIndex(c)] == c
  {
    forall i | 0 <= i < |AllCrops| ensures CropIndex(AllCrops[i]) == i {
      if i == 0 {} else if i == 1 {} else if i == 2 {} else if i == 3 {} else if i == 4 {} else if i == 5 {} else if i == 6 {} else if i == 7 {}
    }
    forall i, j | 0 <= i < j < |AllCrops| ensures AllCrops[i] != AllCrops[j] {
      assert CropIndex(AllCrops[i]) == i && CropIndex(AllCrops[j]) == j;
    }
  }

  /** Every status is listed in `AllStatuses`, once. */
  lemma StatusesEnumerated()
    ensures Distinct(AllStatuses)
    ensures forall st :: 0 <= StatusIndex(st) < |AllStatuses| && AllStatuses[StatusIndex(st)] == st
  {
    forall i | 0 <= i < |AllStatuses| ensures StatusIndex(AllStatuses[i]) == i {
      if i == 0 {} else if i == 1 {} else if i == 2 {} else if i == 3 {} else if i == 4 {}
    }
    forall i, j | 0 <= i < j < |AllStatuses| ensures AllStatuses[i] != AllStatuses[j] {
      assert StatusIndex(AllStatuses[i]) == i && StatusIndex(AllStatuses[j]) == j;
    }
  }

  /** A role distribution that counts every role adds up to the number of users. */
  lemma RoleDistributionTotal(m: map<UserRole, nat>, users: seq<UserProfile>)
    requires forall role :: CountIn(m, role) == Occurrences(users, RoleOf, role)
    ensures TotalOver(m, AllRoles) == |users|
  {
    TotalOverTally(m, users, RoleOf, AllRoles);
    RolesEnumerated();
    forall i | 0 <= i < |users| ensures RoleOf(users[i]) in AllRoles {
      assert AllRoles[RoleIndex(users[i].role)] == users[i].role;
    }
    OccurrenceTotalIsLength(users, RoleOf, AllRoles);
  }

  /** A crop distribution that counts every crop adds up to the number of products. */
  lemma CropDistributionTotal(m: map<CropType, nat>, products: seq<Product>)
    requires forall c :: CountIn(m, c) == Occurrences(products, CategoryOf, c)
    ensures TotalOver(m, AllCrops) == |products|
  {
    TotalOverTally(m, products, CategoryOf, AllCrops);
    CropsEnumerated();
    forall i | 0 <= i < |products| ensures CategoryOf(products[i]) in AllCrops {
      assert AllCrops[CropIndex(products[i].category)] == products[i].category;
    }
    OccurrenceTotalIsLength(products, CategoryOf, AllCrops);
  }

  /** A status distribution that counts every status adds up to the number of products. */
  lemma StatusDistributionTotal(m: map<ProductStatus, nat>, products: seq<Product>)
    requires forall st :: CountIn(m, st) == Occurrences(products, StatusOf, st)
    ensures TotalOver(m, AllStatuses) == |products|
  {
    TotalOverTally(m, products, StatusOf, AllStatuses);
    StatusesEnumerated();
    forall i | 0 <= i < |products| ensures StatusOf(products[i]) in AllStatuses {
      assert AllStatuses[StatusIndex(products[i].status)] == products[i].status;
    }
    OccurrenceTotalIsLength(products, StatusOf, AllStatuses);
  }

  /** A recent join: the user was created less than thirty days before `now`. */
  predicate JoinedRecently(u: UserProfile, now: int)
  {
    now - u.createdAt < RecentWindow
  }

  datatype UserReport = UserReport(totalUsers: nat, roleDistribution: map<UserRole, nat>, recentJoins: nat)

  /**
   * `generateUserReport` at clock reading `now`: the number of users, how
   * many have each role (the roles add up to the number of users), and how
   * many joined within the last thirty days.
   */
  method GenerateUserReport(s: AppState, now: int) returns (r: UserReport)
    ensures r.totalUsers == |s.users|
    ensures forall role :: CountIn(r.roleDistribution, role) == Occurrences(s.users, RoleOf, role)
    ensures forall role :: role in r.roleDistribution <==> exists i :: 0 <= i < |s.users| && s.users[i].role == role
    ensures TotalOver(r.roleDistribution, AllRoles) == r.totalUsers
    ensures r.recentJoins == Count(s.users, (u: UserProfile) => JoinedRecently(u, now)) && r.recentJoins <= r.totalUsers
  {
    var roles := Tally(s.users, RoleOf);
    RoleDistributionTotal(roles, s.users);
    r := UserReport(|s.users|, roles, Count(s.users, (u: UserProfile) => JoinedRecently(u, now)));
  }

  datatype ProductReport = ProductReport(
    totalProducts: nat,
    categoryDistribution: map<CropType, nat>,
    statusDistribution: map<ProductStatus, nat>,
    organicProducts: nat)

  /** `organicCertified` is truthy only when it is present and true. */
  predicate IsOrganic(p: Product)
  {
    p.organicCertified == Some(true)
  }

  /**
   * `generateProductReport`: the number of products, the crop and status
   * distributions (each adding up to the number of products), and how many
   * are certified organic.
   */
  method GenerateProductReport(s: AppState) returns (r: ProductReport)
    ensures r.totalProducts == |s.products|
    ensures forall c :: CountIn(r.categoryDistribution, c) == Occurrences(s.products, CategoryOf, c)
    ensures forall st :: CountIn(r.statusDistribution, st) == Occurrences(s.products, StatusOf, st)
    ensures TotalOver(r.categoryDistribution, AllCrops) == r.totalProducts
    ensures TotalOver(r.statusDistribution, AllStatuses) == r.totalProducts
    ensures r.organicProducts == Count(s.products, IsOrganic) && r.organicProducts <= r.totalProducts
  {
    var categories := Tally(s.products, CategoryOf);
    var statuses := Tally(s.products, StatusOf);
    CropDistributionTotal(categories, s.products);
    StatusDistributionTotal(statuses, s.products);
    r := ProductReport(|s.products|, categories, statuses, Count(s.products, IsOrganic));
  }

  datatype TransactionReport = TransactionReport(
    totalTransactions: int,
    totalPayments: nat,
    completedPayments: nat,
    pendingPayments: int,
    totalAmount: int)

  predicate IsReleased(p: Payment)
  {
    p.state == Released
  }

  /** Anything not released, whether escrowed, refunded or disputed, counts as pending. */
  predicate IsPending(p: Payment)
  {
    !IsReleased(p)
  }

  function UserTransactions(u: UserProfile): int
  {
    u.totalTransactions
  }

  /**
   * `generateTransactionReport`: the users' transaction counters added up, the
   * number of payments, how many are released, the rest as pending, and the
   * total amount.
   */
  function GenerateTransactionReport(s: AppState): (r: TransactionReport)
    ensures r.totalPayments == |s.payments|
    ensures r.completedPayments == Count(s.payments, IsReleased)
    ensures r.pendingPayments == Count(s.payments, IsPending) && r.pendingPayments >= 0
    ensures r.totalAmount == Sum(Filter(s.payments, IsReleased), AmountOf) +
                             Sum(Filter(s.payments, IsPending), AmountOf)
    ensures r.totalTransactions == Sum(s.users, UserTransactions)
  {
    var completed := Count(s.payments, IsReleased);
    CountSplit(s.payments, IsReleased, IsPending);
    SumSplit(s.payments, AmountOf, IsReleased, IsPending);
    TransactionReport(
      Sum(s.users, UserTransactions),
      |s.payments|,
      completed,
      |s.payments| - completed,
      Sum(s.payments, AmountOf))
  }

  /** With non-negative counters, the reported number of transactions is non-negative. */
  lemma TotalTransactionsNonNegative(s: AppState)
    requires forall u :: u in s.users ==> u.totalTransactions >= 0
    ensures GenerateTransactionReport(s).totalTransactions >= 0
  {
    SumNonNegative(s.users, UserTransactions);
  }

  datatype TrustReport = TrustReport(highTrustUsers: nat, mediumTrustUsers: nat, lowTrustUsers: nat)

  predicate HighTrust(u: UserProfile) { u.trustScore >= 90 }
  predicate MediumTrust(u: UserProfile) { 70 <= u.trustScore < 90 }
  predicate LowTrust(u: UserProfile) { u.trustScore < 70 }

  /**
   * `generateTrustScoreReport`: users with scores of 90 and above, 70 to 89,
   * and below 70. Every user falls in exactly one bucket.
   */
  function GenerateTrustScoreReport(s: AppState): (r: TrustReport)
    ensures r.highTrustUsers + r.mediumTrustUsers + r.lowTrustUsers == |s.users|
    ensures r.highTrustUsers == |Filter(s.users, HighTrust)|
    ensures r.mediumTrustUsers == |Filter(s.users, MediumTrust)|
    ensures r.lowTrustUsers == |Filter(s.users, LowTrust)|
  {
    CountPartition3(s.users, HighTrust, MediumTrust, LowTrust);
    TrustReport(Count(s.users, HighTrust), Count(s.users, MediumTrust), Count(s.users, LowTrust))
  }

  datatype DeliveryReport = DeliveryReport(
    totalShipments: nat,
    deliveredShipments: nat,
    inTransitShipments: nat,
    pendingShipments: int)

  predicate IsDelivered(x: Shipment) { x.status == ShipmentDelivered }
  predicate IsInTransit(x: Shipment) { x.status == ShipmentInTransit }
  predicate IsNeitherDeliveredNorInTransit(x: Shipment) { !IsDelivered(x) && !IsInTransit(x) }

  /**
   * `generateDeliveryReport`: the number of shipments, how many are delivered
   * and in transit, and the rest as pending, which are exactly the shipments
   * in neither state and so never negative.
   */
  function GenerateDeliveryReport(s: AppState): (r: DeliveryReport)
    ensures r.totalShipments == |s.shipments|
    ensures r.deliveredShipments == |Filter(s.shipments, IsDelivered)|
    ensures r.inTransitShipments == |Filter(s.shipments, IsInTransit)|
    ensures r.pendingShipments == |Filter(s.shipments, IsNeitherDeliveredNorInTransit)|
    ensures r.pendingShipments >= 0
  {
    CountPartition3(s.shipments, IsDelivered, IsInTransit, IsNeitherDeliveredNorInTransit);
    var delivered := Count(s.shipments, IsDelivered);
    var inTransit := Count(s.shipments, IsInTransit);
    DeliveryReport(|s.shipments|, delivered, inTransit, |s.shipments| - delivered - inTransit)
  }
}
