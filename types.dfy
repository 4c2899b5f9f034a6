/**
 * The entities of the farm-to-consumer store (users, products, shipments,
 * events, ratings, payments), the aggregate application state, the partial
 * patches the update actions carry, and the closed set of actions.
 *
 * JavaScript numbers are `int` where the application only ever stores whole
 * values (timestamps in milliseconds, counters, scores, stars, amounts in
 * rupees) and `real` for measured quantities. An optional property `x?: T`
 * is an `Option<T>`.
 */
module Types {
  import opened Wrappers

  datatype UserRole = Farmer | Transporter | Retailer | Consumer | Admin

  datatype UserProfile = UserProfile(
    id: string,
    role: UserRole,
    name: string,
    district: string,
    trustScore: int,
    phone: Option<string>,
    email: Option<string>,
    createdAt: int,
    totalTransactions: int,
    successfulDeliveries: int)

  datatype CropType = Paddy | Turmeric | Brinjal | Chili | Groundnut | Sesame | Maize | Coconut | Cashew

  datatype ProductStatus = Registered | PickupScheduled | InTransit | Delivered | Verified | Expired

  datatype Unit = Kg | Quintal | Tonnes

  datatype Product = Product(
    id: string,
    name: string,
    category: CropType,
    variety: Option<string>,
    unit: Unit,
    quantity: real,
    farmerId: string,
    district: string,
    harvestDate: int,
    expiryDate: int,
    status: ProductStatus,
    qrCodeId: string,
    blockchainTx: Option<string>,
    description: Option<string>,
    organicCertified: Option<bool>,
    pricePerUnit: Option<real>,
    createdAt: int)

  datatype ShipmentStatus = Pending | ShipmentPickupScheduled | PickedUp | ShipmentInTransit | ShipmentDelivered | Cancelled

  datatype Location = Location(lat: real, lng: real)

  datatype EventType = Registration | PickupScheduledEvent | PickedUpEvent | StatusUpdate | TemperatureLog | DeliveredEvent | VerifiedEvent

  datatype Event = Event(
    id: string,
    productId: Option<string>,
    shipmentId: Option<string>,
    actorRole: UserRole,
    actorId: string,
    eventType: EventType,
    timestamp: int,
    location: Option<string>,
    temperature: Option<real>,
    humidity: Option<real>,
    blockchainTx: Option<string>,
    notes: Option<string>)

  datatype Shipment = Shipment(
    id: string,
    productIds: seq<string>,
    transporterId: Option<string>,
    originDistrict: string,
    destinationDistrict: string,
    status: ShipmentStatus,
    createdAt: int,
    scheduledPickup: Option<int>,
    actualPickup: Option<int>,
    estimatedDelivery: Option<int>,
    actualDelivery: Option<int>,
    events: seq<Event>,
    temperature: Option<real>,
    humidity: Option<real>,
    currentLocation: Option<Location>)

  datatype Rating = Rating(
    id: string,
    targetId: string,
    targetRole: UserRole,
    fromId: string,
    fromRole: UserRole,
    stars: int,
    comment: Option<string>,
    createdAt: int,
    productId: Option<string>,
    shipmentId: Option<string>)

  datatype PaymentState = Escrowed | Released | Refunded | Disputed

  datatype ReleaseCondition = DeliveryConfirmed | QualityVerified | ManualRelease

  datatype Currency = INR

  datatype Payment = Payment(
    id: string,
    payerId: string,
    payeeId: string,
    productId: Option<string>,
    shipmentId: Option<string>,
    amount: int,
    state: PaymentState,
    blockchainTx: Option<string>,
    createdAt: int,
    releasedAt: Option<int>,
    escrowReleaseCondition: ReleaseCondition,
    currency: Currency)

  /** A payment's amount, as the reports and the escrow view add it up. */
  function AmountOf(p: Payment): int
  {
    p.amount
  }

  /** The aggregate root: the session's user, the six collections and the two status slots. */
  datatype AppState = AppState(
    currentUser: Option<UserProfile>,
    users: seq<UserProfile>,
    products: seq<Product>,
    shipments: seq<Shipment>,
    events: seq<Event>,
    ratings: seq<Rating>,
    payments: seq<Payment>,
    loading: bool,
    error: Option<string>)

  /*
   * `Partial<T>`: a field that is `None` is a key the patch does not carry.
   * For a property that is itself optional in `T`, the patch may carry the key
   * with the value `undefined`, which the object spread copies like any other
   * value; that is `Some(None)`.
   */

  datatype UserPatch = UserPatch(
    id: Option<string>,
    role: Option<UserRole>,
    name: Option<string>,
    district: Option<string>,
    trustScore: Option<int>,
    phone: Option<Option<string>>,
    email: Option<Option<string>>,
    createdAt: Option<int>,
    totalTransactions: Option<int>,
    successfulDeliveries: Option<int>)

  datatype ProductPatch = ProductPatch(
    id: Option<string>,
    name: Option<string>,
    category: Option<CropType>,
    variety: Option<Option<string>>,
    unit: Option<Unit>,
    quantity: Option<real>,
    farmerId: Option<string>,
    district: Option<string>,
    harvestDate: Option<int>,
    expiryDate: Option<int>,
    status: Option<ProductStatus>,
    qrCodeId: Option<string>,
    blockchainTx: Option<Option<string>>,
    description: Option<Option<string>>,
    organicCertified: Option<Option<bool>>,
    pricePerUnit: Option<Option<real>>,
    createdAt: Option<int>)

  datatype ShipmentPatch = ShipmentPatch(
    id: Option<string>,
    productIds: Option<seq<string>>,
    transporterId: Option<Option<string>>,
    originDistrict: Option<string>,
    destinationDistrict: Option<string>,
    status: Option<ShipmentStatus>,
    createdAt: Option<int>,
    scheduledPickup: Option<Option<int>>,
    actualPickup: Option<Option<int>>,
    estimatedDelivery: Option<Option<int>>,
    actualDelivery: Option<Option<int>>,
    events: Option<seq<Event>>,
    temperature: Option<Option<real>>,
    humidity: Option<Option<real>>,
    currentLocation: Option<Option<Location>>)

  datatype PaymentPatch = PaymentPatch(
    id: Option<string>,
    payerId: Option<string>,
    payeeId: Option<string>,
    productId: Option<Option<string>>,
    shipmentId: Option<Option<string>>,
    amount: Option<int>,
    state: Option<PaymentState>,
    blockchainTx: Option<Option<string>>,
    createdAt: Option<int>,
    releasedAt: Option<Option<int>>,
    escrowReleaseCondition: Option<ReleaseCondition>,
    currency: Option<Currency>)

  /** The closed set of actions the reducer accepts. */
  datatype AppAction =
    | SetCurrentUser(sessionUser: Option<UserProfile>)
    | AddUser(user: UserProfile)
    | UpdateUser(userId: string, userUpdates: UserPatch)
    | AddProduct(product: Product)
    | UpdateProduct(productId: string, productUpdates: ProductPatch)
    | AddShipment(shipment: Shipment)
    | UpdateShipment(shipmentId: string, shipmentUpdates: ShipmentPatch)
    | AddEvent(event: Event)
    | AddRating(rating: Rating)
    | AddPayment(payment: Payment)
    | UpdatePayment(paymentId: string, paymentUpdates: PaymentPatch)
    | SetLoading(flag: bool)
    | SetError(message: Option<string>)
    | ResetDemoData
    | LoadState(saved: AppState)

  /** `{ ...x, ...patch }` for one property: the patch's value when it carries the key. */
  function Overwrite<T>(original: T, update: Option<T>): T
  {
    update.GetOr(original)
  }

  function PatchUser(u: UserProfile, p: UserPatch): UserProfile
  {
    UserProfile(
      Overwrite(u.id, p.id), Overwrite(u.role, p.role), Overwrite(u.name, p.name),
      Overwrite(u.district, p.district), Overwrite(u.trustScore, p.trustScore),
      Overwrite(u.phone, p.phone), Overwrite(u.email, p.email),
      Overwrite(u.createdAt, p.createdAt), Overwrite(u.totalTransactions, p.totalTransactions),
      Overwrite(u.successfulDeliveries, p.successfulDeliveries))
  }

  function PatchProduct(x: Product, p: ProductPatch): Product
  {
    Product(
      Overwrite(x.id, p.id), Overwrite(x.name, p.name), Overwrite(x.category, p.category),
      Overwrite(x.variety, p.variety), Overwrite(x.unit, p.unit), Overwrite(x.quantity, p.quantity),
      Overwrite(x.farmerId, p.farmerId), Overwrite(x.district, p.district),
      Overwrite(x.harvestDate, p.harvestDate), Overwrite(x.expiryDate, p.expiryDate),
      Overwrite(x.status, p.status), Overwrite(x.qrCodeId, p.qrCodeId),
      Overwrite(x.blockchainTx, p.blockchainTx), Overwrite(x.description, p.description),
      Overwrite(x.organicCertified, p.organicCertified), Overwrite(x.pricePerUnit, p.pricePerUnit),
      Overwrite(x.createdAt, p.createdAt))
  }

  function PatchShipment(x: Shipment, p: ShipmentPatch): Shipment
  {
    Shipment(
      Overwrite(x.id, p.id), Overwrite(x.productIds, p.productIds),
      Overwrite(x.transporterId, p.transporterId), Overwrite(x.originDistrict, p.originDistrict),
      Overwrite(x.destinationDistrict, p.destinationDistrict), Overwrite(x.status, p.status),
      Overwrite(x.createdAt, p.createdAt), Overwrite(x.scheduledPickup, p.scheduledPickup),
      Overwrite(x.actualPickup, p.actualPickup), Overwrite(x.estimatedDelivery, p.estimatedDelivery),
      Overwrite(x.actualDelivery, p.actualDelivery), Overwrite(x.events, p.events),
      Overwrite(x.temperature, p.temperature), Overwrite(x.humidity, p.humidity),
      Overwrite(x.currentLocation, p.currentLocation))
  }

  function PatchPayment(x: Payment, p: PaymentPatch): Payment
  {
    Payment(
      Overwrite(x.id, p.id), Overwrite(x.payerId, p.payerId), Overwrite(x.payeeId, p.payeeId),
      Overwrite(x.productId, p.productId), Overwrite(x.shipmentId, p.shipmentId),
      Overwrite(x.amount, p.amount), Overwrite(x.state, p.state),
      Overwrite(x.blockchainTx, p.blockchainTx), Overwrite(x.createdAt, p.createdAt),
      Overwrite(x.releasedAt, p.releasedAt),
      Overwrite(x.escrowReleaseCondition, p.escrowReleaseCondition),
      Overwrite(x.currency, p.currency))
  }
}
