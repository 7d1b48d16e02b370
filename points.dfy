/** The loyalty-points ledger of the bot, as values: the `customer` and
    `history` collections of the `pos` database, the filters the handlers
    query them with, and one state transition per handler. Telegram, Shopify
    and MongoDB I/O are not part of it; what they return is a parameter. */
module Points {
  datatype Option<T> = None | Some(value: T)

  /** A MongoDB ObjectID. 0 is the zero ObjectID that `Decode` leaves in a
      `Customer` when no document matched; the ids the driver allocates on
      insert are 1, 2, 3, ... */
  type ObjectId = nat
  const NilId: ObjectId := 0

  /** The `Type` field of a history record: "buy" or "redeem". */
  datatype Kind = Buy | Redeem

  datatype Customer = Customer(
    id: ObjectId,
    firstName: string,
    username: string,
    telegramUserId: string,
    shopifyCustomerId: string,
    score: int)

  /** What `FindOne(...).Decode(&customer)` leaves when nothing matched. */
  const ZeroCustomer := Customer(NilId, "", "", "", "", 0)

  /** `Score` holds the (positive) number of points moved, `Kind` their direction. */
  datatype HistoryRecord = HistoryRecord(customerId: ObjectId, score: int, kind: Kind, timestamp: int)

  /** The database: both collections in insertion order, and the next ObjectID
      the driver will hand out. */
  datatype Db = Db(customers: seq<Customer>, history: seq<HistoryRecord>, nextId: ObjectId)

  const EmptyDb := Db([], [], 1)

  /** Points credited per `orders/create` webhook. */
  const OrderPoint: int := 2
  /** `drinkPoint`. */
  const DrinkPoint: int := 2
  /** `foodPoint`. */
  const FoodPoint: int := 4

  const OrdersCreate := "orders/create"

  /** The `bson.M` filters the handlers pass to `FindOne` and `UpdateOne`. */
  datatype Filter = ByTelegramUserId(tid: string) | ByShopifyCustomerId(sid: string) | ById(id: ObjectId)

  predicate Matches(c: Customer, f: Filter) {
    match f
    case ByTelegramUserId(tid) => c.telegramUserId == tid
    case ByShopifyCustomerId(sid) => c.shopifyCustomerId == sid
    case ById(id) => c.id == id
  }

  /** `FindOne`: the position of the first document, in natural order, that matches. */
  function FindOne(cs: seq<Customer>, f: Filter): (r: Option<nat>)
    ensures r.Some? ==> r.value < |cs| && Matches(cs[r.value], f)
    ensures r.Some? ==> forall j :: 0 <= j < r.value ==> !Matches(cs[j], f)
    ensures r.None? <==> forall j :: 0 <= j < |cs| ==> !Matches(cs[j], f)
  {
    if cs == [] then None
    else if Matches(cs[0], f) then Some(0)
    else match FindOne(cs[1..], f)
      case None => None
      case Some(i) => Some(i + 1)
  }

  /** `FindOne(...).Decode(&customer)` with the error ignored: the matching
      document, or the zero-valued customer. */
  function Decoded(cs: seq<Customer>, f: Filter): Customer {
    match FindOne(cs, f)
    case Some(i) => cs[i]
    case None => ZeroCustomer
  }

  /** `UpdateOne({_id: id}, {$set: {score: v}})`: the first document with that
      id gets score `v`; without one, nothing changes. */
  function SetScore(cs: seq<Customer>, id: ObjectId, v: int): (r: seq<Customer>)
    ensures |r| == |cs|
    ensures forall j :: 0 <= j < |cs| ==> r[j].id == cs[j].id && r[j].telegramUserId == cs[j].telegramUserId
  {
    match FindOne(cs, ById(id))
    case Some(i) => cs[i := cs[i].(score := v)]
    case None => cs
  }

  /** The common tail of the accrual and redemption handlers: write back the
      new score by `_id`, then insert one history record. */
  function Post(db: Db, c: Customer, newScore: int, amount: int, kind: Kind, now: int): Db {
    db.(customers := SetScore(db.customers, c.id, newScore),
        history := db.history + [HistoryRecord(c.id, amount, kind, now)])
  }

  // ---------------------------------------------------------------------------
  // One transition per handler

  /** `StartHandler`: a Telegram user without a customer document is registered
      at score 0 with the id Shopify returned for it (`shopifyId`). */
  function Start(db: Db, tid: string, firstName: string, username: string, shopifyId: string): Db {
    if FindOne(db.customers, ByTelegramUserId(tid)).Some? then db
    else db.(customers := db.customers + [Customer(db.nextId, firstName, username, tid, shopifyId, 0)],
             nextId := db.nextId + 1)
  }

  /** The `/api/shopify/webhook` handler. `sid` is the formatted
      `customer.id` of the payload, `None` when the body could not be read or
      decoded or lacks the field. */
  function OrderWebhook(db: Db, topic: string, sid: Option<string>, now: int): Db {
    if sid.None? || topic != OrdersCreate then db
    else
      var c := Decoded(db.customers, ByShopifyCustomerId(sid.value));
      if c.telegramUserId == "" then db
      else Post(db, c, c.score + OrderPoint, OrderPoint, Buy, now)
  }

  /** What `RedeemPointsHandler` replies: the balance, with the two exchange
      buttons or without them. */
  datatype Menu = NoOffer(score: int) | Offer(score: int)

  function RedeemMenu(db: Db, tid: string): Menu {
    var c := Decoded(db.customers, ByTelegramUserId(tid));
    if c.score < DrinkPoint then NoOffer(c.score) else Offer(c.score)
  }

  /** `ExchangeDrinkHandler` as written: no balance check. `markupCleared` is
      whether removing the inline buttons succeeded (otherwise the handler
      returns first). */
  function ExchangeDrink(db: Db, tid: string, markupCleared: bool, now: int): Db {
    if !markupCleared then db
    else
      var c := Decoded(db.customers, ByTelegramUserId(tid));
      Post(db, c, c.score - DrinkPoint, DrinkPoint, Redeem, now)
  }

  /** The drink exchange with the guard the food exchange has. */
  function ExchangeDrinkGuarded(db: Db, tid: string, markupCleared: bool, now: int): Db {
    if !markupCleared then db
    else
      var c := Decoded(db.customers, ByTelegramUserId(tid));
      if c.score < DrinkPoint then db
      else Post(db, c, c.score - DrinkPoint, DrinkPoint, Redeem, now)
  }

  /** `ExchangeFoodHandler`: rejected below `foodPoint`. */
  function ExchangeFood(db: Db, tid: string, markupCleared: bool, now: int): Db {
    if !markupCleared then db
    else
      var c := Decoded(db.customers, ByTelegramUserId(tid));
      if c.score < FoodPoint then db
      else Post(db, c, c.score - FoodPoint, FoodPoint, Redeem, now)
  }

  /** `NukeEndpoint` drops the database. The ObjectID allocator is not part of
      it and keeps counting. */
  function Nuke(db: Db): Db {
    db.(customers := [], history := [])
  }

  // ---------------------------------------------------------------------------
  // The ledger invariant

  /** Signed effect of one history record on its customer's score. */
  function Delta(h: HistoryRecord): int {
    if h.kind == Buy then h.score else -h.score
  }

  /** Sum of the "buy" amounts minus sum of the "redeem" amounts recorded for `id`. */
  function Balance(hs: seq<HistoryRecord>, id: ObjectId): int {
    if hs == [] then 0
    else Balance(hs[..|hs| - 1], id) + (if hs[|hs| - 1].customerId == id then Delta(hs[|hs| - 1]) else 0)
  }

  predicate IdsDistinct(cs: seq<Customer>) {
    forall i, j :: 0 <= i < j < |cs| ==> cs[i].id != cs[j].id
  }

  predicate TelegramIdsDistinct(cs: seq<Customer>) {
    forall i, j :: 0 <= i < j < |cs| ==> cs[i].telegramUserId != cs[j].telegramUserId
  }

  /** The database the handlers maintain: allocated ids, one document per id
      and per Telegram user, positive history amounts, and every score equal
      to the balance of that customer's history. */
  predicate Valid(db: Db) {
    && db.nextId >= 1
    && IdsDistinct(db.customers)
    && TelegramIdsDistinct(db.customers)
    && (forall i :: 0 <= i < |db.customers| ==> NilId < db.customers[i].id < db.nextId)
    && (forall k :: 0 <= k < |db.history| ==> db.history[k].customerId < db.nextId && db.history[k].score > 0)
    && (forall i :: 0 <= i < |db.customers| ==> db.customers[i].score == Balance(db.history, db.customers[i].id))
  }

  predicate ScoresNonNegative(db: Db) {
    forall i :: 0 <= i < |db.customers| ==> db.customers[i].score >= 0
  }

  // ---------------------------------------------------------------------------
  // Sequences of requests

  /** One request reaching the bot or the HTTP server that may write. */
  datatype Event =
    | StartCommand(tid: string, firstName: string, username: string, shopifyId: string)
    | Webhook(topic: string, sid: Option<string>, now: int)
    | DrinkButton(tid: string, markupCleared: bool, now: int)
    | FoodButton(tid: string, markupCleared: bool, now: int)
    | NukeRequest

  /** The effect of one request; `guarded` selects the drink exchange with the
      balance check instead of the one as written. */
  function Apply(db: Db, e: Event, guarded: bool): Db {
    match e
    case StartCommand(tid, firstName, username, shopifyId) => Start(db, tid, firstName, username, shopifyId)
    case Webhook(topic, sid, now) => OrderWebhook(db, topic, sid, now)
    case DrinkButton(tid, markupCleared, now) =>
      if guarded then ExchangeDrinkGuarded(db, tid, markupCleared, now) else ExchangeDrink(db, tid, markupCleared, now)
    case FoodButton(tid, markupCleared, now) => ExchangeFood(db, tid, markupCleared, now)
    case NukeRequest => Nuke(db)
  }

  function Run(db: Db, es: seq<Event>, guarded: bool): Db
    decreases |es|
  {
    if es == [] then db else Run(Apply(db, es[0], guarded), es[1..], guarded)
  }
}
