/**
 * The central store: the reducer that maps a state and an action to the next
 * state, the demo data it seeds on reset, and the start-up choice between a
 * persisted state and the demo data.
 *
 * The reducer reads no clock itself except through the demo data, whose
 * timestamps are relative to `now`; `now` is therefore a parameter.
 */
module DemoStore {
  import opened Wrappers
  import opened Types
  import opened Seqs

  /** The state the provider starts from before start-up dispatches anything. */
  const InitialState := AppState(None, [], [], [], [], [], [], false, None)

  /** Milliseconds in a day. */
  const OneDay := 24 * 60 * 60 * 1000

  /** Every entry with identifier `id` gets the patch; every other one is kept. */
  function UpdateUsers(users: seq<UserProfile>, id: string, p: UserPatch): seq<UserProfile>
  {
    UpdateWhere(users, (u: UserProfile) => u.id == id, (u: UserProfile) => PatchUser(u, p))
  }

  function UpdateProducts(products: seq<Product>, id: string, p: ProductPatch): seq<Product>
  {
    UpdateWhere(products, (x: Product) => x.id == id, (x: Product) => PatchProduct(x, p))
  }

  function UpdateShipments(shipments: seq<Shipment>, id: string, p: ShipmentPatch): seq<Shipment>
  {
    UpdateWhere(shipments, (x: Shipment) => x.id == id, (x: Shipment) => PatchShipment(x, p))
  }

  function UpdatePayments(payments: seq<Payment>, id: string, p: PaymentPatch): seq<Payment>
  {
    UpdateWhere(payments, (x: Payment) => x.id == id, (x: Payment) => PatchPayment(x, p))
  }

  /** `appReducer`: the next state after one action. */
  function Reduce(s: AppState, a: AppAction, now: int): AppState
  {
    match a
    case SetCurrentUser(u) => s.(currentUser := u)
    case AddUser(u) => s.(users := s.users + [u])
    case UpdateUser(id, p) =>
      s.(users := UpdateUsers(s.users, id, p),
         currentUser := if s.currentUser.Some? && s.currentUser.value.id == id
                        then Some(PatchUser(s.currentUser.value, p))
                        else s.currentUser)
    case AddProduct(x) => s.(products := s.products + [x])
    case UpdateProduct(id, p) => s.(products := UpdateProducts(s.products, id, p))
    case AddShipment(x) => s.(shipments := s.shipments + [x])
    case UpdateShipment(id, p) => s.(shipments := UpdateShipments(s.shipments, id, p))
    case AddEvent(e) => s.(events := s.events + [e])
    case AddRating(x) => s.(ratings := s.ratings + [x])
    case AddPayment(x) => s.(payments := s.payments + [x])
    case UpdatePayment(id, p) => s.(payments := UpdatePayments(s.payments, id, p))
    case SetLoading(b) => s.(loading := b)
    case SetError(m) => s.(error := m)
    case ResetDemoData => DemoState(now)
    case LoadState(saved) => saved
  }

  /**
   * Each action replaces the slices it targets and keeps every other slice as
   * it was: per slice, the only actions that may change it.
   */
  lemma ReduceChangesOnlyTarget(s: AppState, a: AppAction, now: int)
    ensures var r := Reduce(s, a, now);
      && (!(a.SetCurrentUser? || a.UpdateUser? || a.ResetDemoData? || a.LoadState?) ==> r.currentUser == s.currentUser)
      && (!(a.AddUser? || a.UpdateUser? || a.ResetDemoData? || a.LoadState?) ==> r.users == s.users)
      && (!(a.AddProduct? || a.UpdateProduct? || a.ResetDemoData? || a.LoadState?) ==> r.products == s.products)
      && (!(a.AddShipment? || a.UpdateShipment? || a.ResetDemoData? || a.LoadState?) ==> r.shipments == s.shipments)
      && (!(a.AddEvent? || a.ResetDemoData? || a.LoadState?) ==> r.events == s.events)
      && (!(a.AddRating? || a.ResetDemoData? || a.LoadState?) ==> r.ratings == s.ratings)
      && (!(a.AddPayment? || a.UpdatePayment? || a.ResetDemoData? || a.LoadState?) ==> r.payments == s.payments)
      && (!(a.SetLoading? || a.ResetDemoData? || a.LoadState?) ==> r.loading == s.loading)
      && (!(a.SetError? || a.ResetDemoData? || a.LoadState?) ==> r.error == s.error)
  {
    match a {
      case SetCurrentUser(_) =>
      case AddUser(_) =>
      case UpdateUser(_, _) =>
      case AddProduct(_) =>
      case UpdateProduct(_, _) =>
      case AddShipment(_) =>
      case UpdateShipment(_, _) =>
      case AddEvent(_) =>
      case AddRating(_) =>
      case AddPayment(_) =>
      case UpdatePayment(_, _) =>
      case SetLoading(_) =>
      case SetError(_) =>
      case ResetDemoData =>
      case LoadState(_) =>
    }
  }

  /**
   * Every add action appends its payload at the end of its own list: one entry
   * more, the earlier entries unchanged, the payload last.
   */
  lemma AddAppends(s: AppState, a: AppAction, now: int)
    requires a.AddUser? || a.AddProduct? || a.AddShipment? || a.AddEvent? || a.AddRating? || a.AddPayment?
    ensures a.AddUser? ==> var l := Reduce(s, a, now).users;
              |l| == |s.users| + 1 && l[..|s.users|] == s.users && l[|s.users|] == a.user
    ensures a.AddProduct? ==> var l := Reduce(s, a, now).products;
              |l| == |s.products| + 1 && l[..|s.products|] == s.products && l[|s.products|] == a.product
    ensures a.AddShipment? ==> var l := Reduce(s, a, now).shipments;
              |l| == |s.shipments| + 1 && l[..|s.shipments|] == s.shipments && l[|s.shipments|] == a.shipment
    ensures a.AddEvent? ==> var l := Reduce(s, a, now).events;
              |l| == |s.events| + 1 && l[..|s.events|] == s.events && l[|s.events|] == a.event
    ensures a.AddRating? ==> var l := Reduce(s, a, now).ratings;
              |l| == |s.ratings| + 1 && l[..|s.ratings|] == s.ratings && l[|s.ratings|] == a.rating
    ensures a.AddPayment? ==> var l := Reduce(s, a, now).payments;
              |l| == |s.payments| + 1 && l[..|s.payments|] == s.payments && l[|s.payments|] == a.payment
  {
  }

  /**
   * UPDATE_PRODUCT keeps the list's length, patches every product whose
   * identifier is the target, keeps every other product, and leaves the list
   * as it was when no product has that identifier.
   */
  lemma UpdateProductTargetsById(s: AppState, id: string, p: ProductPatch, now: int)
    ensures var l := Reduce(s, UpdateProduct(id, p), now).products;
      && |l| == |s.products|
      && (forall i :: 0 <= i < |l| && s.products[i].id == id ==> l[i] == PatchProduct(s.products[i], p))
      && (forall i :: 0 <= i < |l| && s.products[i].id != id ==> l[i] == s.products[i])
      && ((forall i :: 0 <= i < |s.products| ==> s.products[i].id != id) ==> l == s.products)
  {
    if forall i :: 0 <= i < |s.products| ==> s.products[i].id != id {
      UpdateWhereNoTarget(s.products, (x: Product) => x.id == id, (x: Product) => PatchProduct(x, p));
    }
  }

  /** UPDATE_SHIPMENT, like UPDATE_PRODUCT, rewrites exactly the shipments with the target identifier. */
  lemma UpdateShipmentTargetsById(s: AppState, id: string, p: ShipmentPatch, now: int)
    ensures var l := Reduce(s, UpdateShipment(id, p), now).shipments;
      && |l| == |s.shipments|
      && (forall i :: 0 <= i < |l| && s.shipments[i].id == id ==> l[i] == PatchShipment(s.shipments[i], p))
      && (forall i :: 0 <= i < |l| && s.shipments[i].id != id ==> l[i] == s.shipments[i])
      && ((forall i :: 0 <= i < |s.shipments| ==> s.shipments[i].id != id) ==> l == s.shipments)
  {
    if forall i :: 0 <= i < |s.shipments| ==> s.shipments[i].id != id {
      UpdateWhereNoTarget(s.shipments, (x: Shipment) => x.id == id, (x: Shipment) => PatchShipment(x, p));
    }
  }

  /** UPDATE_PAYMENT, like UPDATE_PRODUCT, rewrites exactly the payments with the target identifier. */
  lemma UpdatePaymentTargetsById(s: AppState, id: string, p: PaymentPatch, now: int)
    ensures var l := Reduce(s, UpdatePayment(id, p), now).payments;
      && |l| == |s.payments|
      && (forall i :: 0 <= i < |l| && s.payments[i].id == id ==> l[i] == PatchPayment(s.payments[i], p))
      && (forall i :: 0 <= i < |l| && s.payments[i].id != id ==> l[i] == s.payments[i])
      && ((forall i :: 0 <= i < |s.payments| ==> s.payments[i].id != id) ==> l == s.payments)
  {
    if forall i :: 0 <= i < |s.payments| ==> s.payments[i].id != id {
      UpdateWhereNoTarget(s.payments, (x: Payment) => x.id == id, (x: Payment) => PatchPayment(x, p));
    }
  }

  /**
   * UPDATE_USER rewrites exactly the users with the target identifier, and
   * writes the same patch onto the session's user exactly when there is one
   * and it has that identifier.
   */
  lemma UpdateUserTargetsById(s: AppState, id: string, p: UserPatch, now: int)
    ensures var r := Reduce(s, UpdateUser(id, p), now);
      && |r.users| == |s.users|
      && (forall i :: 0 <= i < |s.users| && s.users[i].id == id ==> r.users[i] == PatchUser(s.users[i], p))
      && (forall i :: 0 <= i < |s.users| && s.users[i].id != id ==> r.users[i] == s.users[i])
      && ((forall i :: 0 <= i < |s.users| ==> s.users[i].id != id) ==> r.users == s.users)
      && (s.currentUser.Some? && s.currentUser.value.id == id ==>
            r.currentUser == Some(PatchUser(s.currentUser.value, p)))
      && (s.currentUser.None? || s.currentUser.value.id != id ==> r.currentUser == s.currentUser)
  {
    if forall i :: 0 <= i < |s.users| ==> s.users[i].id != id {
      UpdateWhereNoTarget(s.users, (u: UserProfile) => u.id == id, (u: UserProfile) => PatchUser(u, p));
    }
  }

  /**
   * The dual write keeps the two views of the session's user in step: if the
   * session's user was the `i`-th entry of the users list before an
   * UPDATE_USER, it still is afterwards, whichever user the action targets.
   */
  lemma UpdateUserKeepsSessionInSync(s: AppState, i: nat, id: string, p: UserPatch, now: int)
    requires i < |s.users| && s.currentUser == Some(s.users[i])
    ensures var r := Reduce(s, UpdateUser(id, p), now);
      i < |r.users| && r.currentUser == Some(r.users[i])
  {
    UpdateUserTargetsById(s, id, p, now);
  }

  /**
   * Updating only a product's status (the end-to-end scenario of marking a
   * product delivered) changes that property of the targeted products and
   * nothing else, and leaves the users list as it was.
   */
  lemma StatusOnlyUpdate(s: AppState, id: string, st: ProductStatus, now: int)
    ensures var p := ProductPatch(None, None, None, None, None, None, None, None, None, None,
                                  Some(st), None, None, None, None, None, None);
      var r := Reduce(s, UpdateProduct(id, p), now);
      && r.users == s.users
      && |r.products| == |s.products|
      && forall i :: 0 <= i < |s.products| ==>
           r.products[i] == if s.products[i].id == id then s.products[i].(status := st) else s.products[i]
  {
    var p := ProductPatch(None, None, None, None, None, None, None, None, None, None,
                          Some(st), None, None, None, None, None, None);
    UpdateProductTargetsById(s, id, p, now);
  }

  /** LOAD_STATE installs its payload exactly, whatever the state before. */
  lemma LoadInstallsPayload(s: AppState, saved: AppState, now: int)
    ensures Reduce(s, LoadState(saved), now) == saved
  {
  }

  /**
   * RESET_DEMO_DATA installs the demo data: not loading, no error, and the
   * first seeded user, the farmer `farmer-1`, as the session's user.
   */
  lemma ResetSeedsDemo(s: AppState, now: int)
    ensures var r := Reduce(s, ResetDemoData, now);
      && r == DemoState(now)
      && !r.loading && r.error == None
      && |r.users| == 7 && r.currentUser == Some(r.users[0]) && r.users[0].id == "farmer-1"
      && |r.products| == 3 && |r.shipments| == 2 && |r.events| == 11
      && |r.ratings| == 2 && |r.payments| == 2
  {
  }

  /** The action the provider dispatches on mount: the persisted state if there is one, the demo data otherwise. */
  function StartupAction(saved: Option<AppState>): (a: AppAction)
    ensures a.LoadState? <==> saved.Some?
  {
    if saved.Some? then LoadState(saved.value) else ResetDemoData
  }

  /** The provider saves a state only when its users list is non-empty. */
  predicate ShouldPersist(s: AppState)
  {
    |s.users| > 0
  }

  /**
   * Start-up yields the persisted state when there is one and the demo data
   * otherwise; either way a state with users is saved back, and the demo data
   * always has users.
   */
  lemma StartupOutcome(saved: Option<AppState>, now: int)
    ensures var r := Reduce(InitialState, StartupAction(saved), now);
      && (saved.Some? ==> r == saved.value)
      && (saved.None? ==> r == DemoState(now) && ShouldPersist(r))
  {
    if saved.Some? {
      assert StartupAction(saved) == LoadState(saved.value);
      LoadInstallsPayload(InitialState, saved.value, now);
    } else {
      assert StartupAction(saved) == ResetDemoData;
      ResetSeedsDemo(InitialState, now);
    }
  }

  function DemoUser(id: string, role: UserRole, name: string, district: string, trust: int,
                    phone: Option<string>, createdAt: int, total: int, successful: int): UserProfile
  {
    UserProfile(id, role, name, district, trust, phone, None, createdAt, total, successful)
  }

  function DemoEvent(id: string, productId: string, t: EventType, actorId: string, actorRole: UserRole,
                     timestamp: int, location: string, temperature: Option<real>, humidity: Option<real>,
                     notes: string): Event
  {
    Event(id, Some(productId), None, actorRole, actorId, t, timestamp, Some(location),
          temperature, humidity, None, Some(notes))
  }

  /** `{ ...initialState, ...generateDemoData() }`: the seeded users, products, shipments, ratings, payments and events. */
  function DemoState(now: int): AppState
  {
    var users := DemoUsers(now);
    AppState(Some(users[0]), users, DemoProducts(now), DemoShipments(now), DemoEvents(now),
             DemoRatings(now), DemoPayments(now), false, None)
  }

  /* The longer texts of the demo records. */
  const Product1TxHash: string := "0x1234567890abcdef1234567890abcdef12345678"
  const Product1Description: string := "Premium organic turmeric from Koraput hills"
  const Product2TxHash: string := "0xabcdef1234567890abcdef1234567890abcdef12"
  const Product2Description: string := "High quality basmati paddy from Sambalpur"
  const Product3TxHash: string := "0x567890abcdef1234567890abcdef1234567890ab"
  const Product3Description: string := "Fresh brinjal harvested from coastal Ganjam"
  const Rating1Comment: string := "Excellent quality turmeric, well packaged"
  const Rating2Comment: string := "On-time delivery, good handling"
  const Event1Notes: string := "Organic turmeric registered with certification"
  const Event2Notes: string := "Pickup scheduled for transport to Bhubaneswar"
  const Event3Notes: string := "Product collected from farm in refrigerated truck"
  const Event4Notes: string := "Temperature check during transit"
  const Event5Notes: string := "Successfully delivered to Green Valley Organics"
  const Event6Notes: string := "Quality verified and accepted by retailer"
  const Event7Notes: string := "Premium Basmati 1121 variety registered"
  const Event8Notes: string := "Transport arranged for delivery to processing center"
  const Event9Notes: string := "Collected and loaded for transport"
  const Event10Notes: string := "Crossed Angul, on schedule for delivery"
  const Event11Notes: string := "Fresh brinjal harvested and ready for market"

  function DemoUsers(now: int): (users: seq<UserProfile>)
    ensures |users| == 7 && users[0].id == "farmer-1"
  {
    [
      DemoUser("farmer-1", Farmer, "Raghunath Pradhan", "koraput", 85, Some("+91-9876543210"),
               now - 30 * OneDay, 12, 11),
      DemoUser("farmer-2", Farmer, "Sunita Behera", "sambalpur", 92, Some("+91-9876543211"),
               now - 45 * OneDay, 18, 17),
      DemoUser("farmer-3", Farmer, "Bipin Kumar Sahu", "ganjam", 78, Some("+91-9876543212"),
               now - 60 * OneDay, 8, 7),
      DemoUser("transporter-1", Transporter, "Ramesh Transport Services", "bhubaneswar", 88,
               Some("+91-9876543213"), now - 90 * OneDay, 45, 42),
      DemoUser("transporter-2", Transporter, "Odisha Express Logistics", "cuttack", 91,
               Some("+91-9876543214"), now - 75 * OneDay, 38, 36),
      DemoUser("retailer-1", Retailer, "Green Valley Organics", "bhubaneswar", 86,
               Some("+91-9876543215"), now - 50 * OneDay, 25, 24),
      DemoUser("admin-1", Admin, "System Admin", "bhubaneswar", 100, None, now - 365 * OneDay, 0, 0)
    ]
  }

  function DemoProducts(now: int): (products: seq<Product>)
    ensures |products| == 3
  {
    [
      Product("prod-1", "Organic Turmeric", Turmeric, Some("Curcuma Longa"), Kg, 50.0, "farmer-1",
              "koraput", now - 7 * OneDay, now + 365 * OneDay, Delivered, "gl-prod001",
              Some(Product1TxHash),
              Some(Product1Description), Some(true), Some(120.0),
              now - 7 * OneDay),
      Product("prod-2", "Basmati Paddy", Paddy, Some("Basmati 1121"), Quintal, 5.0, "farmer-2",
              "sambalpur", now - 14 * OneDay, now + 180 * OneDay, InTransit, "gl-prod002",
              Some(Product2TxHash),
              Some(Product2Description), None, Some(2500.0),
              now - 14 * OneDay),
      Product("prod-3", "Fresh Brinjal", Brinjal, Some("Round Purple"), Kg, 25.0, "farmer-3",
              "ganjam", now - 2 * OneDay, now + 14 * OneDay, Registered, "gl-prod003",
              Some(Product3TxHash),
              Some(Product3Description), None, Some(35.0),
              now - 2 * OneDay)
    ]
  }

  function DemoShipments(now: int): (shipments: seq<Shipment>)
    ensures |shipments| == 2
  {
    [
      Shipment("ship-1", ["prod-1"], Some("transporter-1"), "koraput", "bhubaneswar",
               ShipmentDelivered, now - 5 * OneDay, None, Some(now - 4 * OneDay), None,
               Some(now - 1 * OneDay), [], Some(22.0), Some(65.0), None),
      Shipment("ship-2", ["prod-2"], Some("transporter-2"), "sambalpur", "bhubaneswar",
               ShipmentInTransit, now - 2 * OneDay, None, Some(now - 1 * OneDay),
               Some(now + 1 * OneDay), None, [], Some(25.0), Some(60.0), Some(Location(20.8, 84.5)))
    ]
  }

  function DemoRatings(now: int): (ratings: seq<Rating>)
    ensures |ratings| == 2
  {
    [
      Rating("rating-1", "farmer-1", Farmer, "retailer-1", Retailer, 5,
             Some(Rating1Comment), now - 1 * OneDay, Some("prod-1"), None),
      Rating("rating-2", "transporter-1", Transporter, "retailer-1", Retailer, 4,
             Some(Rating2Comment), now - 1 * OneDay, None, Some("ship-1"))
    ]
  }

  function DemoPayments(now: int): (payments: seq<Payment>)
    ensures |payments| == 2
  {
    [
      Payment("pay-1", "retailer-1", "farmer-1", Some("prod-1"), None, 6000, Released, None,
              now - 5 * OneDay, Some(now - 1 * OneDay), DeliveryConfirmed, INR),
      Payment("pay-2", "retailer-1", "farmer-2", Some("prod-2"), None, 12500, Escrowed, None,
              now - 2 * OneDay, None, DeliveryConfirmed, INR)
    ]
  }

  function DemoEvents(now: int): (events: seq<Event>)
    ensures |events| == 11
  {
    [
      DemoEvent("event-1", "prod-1", Registration, "farmer-1", Farmer, now - 7 * OneDay,
                "Koraput, Odisha", None, None, Event1Notes),
      DemoEvent("event-2", "prod-1", PickupScheduledEvent, "transporter-1", Transporter, now - 5 * OneDay,
                "Koraput, Odisha", None, None, Event2Notes),
      DemoEvent("event-3", "prod-1", PickedUpEvent, "transporter-1", Transporter, now - 4 * OneDay,
                "Koraput, Odisha", Some(22.0), Some(65.0), Event3Notes),
      DemoEvent("event-4", "prod-1", TemperatureLog, "transporter-1", Transporter, now - 3 * OneDay,
                "En route to Bhubaneswar", Some(24.0), Some(62.0), Event4Notes),
      DemoEvent("event-5", "prod-1", DeliveredEvent, "transporter-1", Transporter, now - 1 * OneDay,
                "Bhubaneswar, Odisha", Some(23.0), Some(63.0), Event5Notes),
      DemoEvent("event-6", "prod-1", VerifiedEvent, "retailer-1", Retailer, now - 1 * OneDay,
                "Bhubaneswar, Odisha", None, None, Event6Notes),
      DemoEvent("event-7", "prod-2", Registration, "farmer-2", Farmer, now - 14 * OneDay,
                "Sambalpur, Odisha", None, None, Event7Notes),
      DemoEvent("event-8", "prod-2", PickupScheduledEvent, "transporter-2", Transporter, now - 2 * OneDay,
                "Sambalpur, Odisha", None, None, Event8Notes),
      DemoEvent("event-9", "prod-2", PickedUpEvent, "transporter-2", Transporter, now - 1 * OneDay,
                "Sambalpur, Odisha", Some(25.0), Some(60.0), Event9Notes),
      DemoEvent("event-10", "prod-2", StatusUpdate, "transporter-2", Transporter, now - 12 * 60 * 60 * 1000,
                "Angul, Odisha", Some(26.0), Some(58.0), Event10Notes),
      DemoEvent("event-11", "prod-3", Registration, "farmer-3", Farmer, now - 2 * OneDay,
                "Ganjam, Odisha", None, None, Event11Notes)
    ]
  }
}
