/** What the handlers promise about the ledger: exact deltas, the food guard,
    append-only history, untouched other customers, and scores that always
    equal the balance of their history. */
module Properties {
  import opened Points

  // ---------------------------------------------------------------------------
  // Lookup and update

  /** A document matching the filter with no match before it is what `FindOne` returns. */
  lemma FindOneFirst(cs: seq<Customer>, f: Filter, i: nat)
    requires i < |cs| && Matches(cs[i], f)
    requires forall j :: 0 <= j < i ==> !Matches(cs[j], f)
    ensures FindOne(cs, f) == Some(i)
  {
    var r := FindOne(cs, f);
    assert r.Some?;
    assert !(r.value < i) && !(r.value > i);
  }

  /** With one document per id, `UpdateOne` by `_id` rewrites that document's score and nothing else. */
  lemma SetScoreAt(cs: seq<Customer>, i: nat, v: int)
    requires IdsDistinct(cs) && i < |cs|
    ensures SetScore(cs, cs[i].id, v) == cs[i := cs[i].(score := v)]
  {
    FindOneFirst(cs, ById(cs[i].id), i);
  }

  /** Appending one record moves exactly its own customer's balance, by its signed amount. */
  lemma BalanceAppend(hs: seq<HistoryRecord>, h: HistoryRecord, id: ObjectId)
    ensures Balance(hs + [h], id) == Balance(hs, id) + (if h.customerId == id then Delta(h) else 0)
  {
    assert (hs + [h])[..|hs|] == hs;
  }

  /** Writing back a registered customer's score with one matching record keeps the ledger valid. */
  lemma PostRegisteredValid(db: Db, i: nat, amount: int, kind: Kind, now: int)
    requires Valid(db) && i < |db.customers| && amount > 0
    ensures var c := db.customers[i];
      Valid(Post(db, c, c.score + Delta(HistoryRecord(c.id, amount, kind, now)), amount, kind, now))
  {
    var c := db.customers[i];
    var h := HistoryRecord(c.id, amount, kind, now);
    var db' := Post(db, c, c.score + Delta(h), amount, kind, now);
    SetScoreAt(db.customers, i, c.score + Delta(h));
    assert db'.history == db.history + [h];
    forall j | 0 <= j < |db'.customers|
      ensures db'.customers[j].score == Balance(db'.history, db'.customers[j].id)
    {
      BalanceAppend(db.history, h, db.customers[j].id);
    }
  }

  /** A record for the zero ObjectID updates nobody and leaves every balance as it was. */
  lemma PostZeroValid(db: Db, newScore: int, amount: int, kind: Kind, now: int)
    requires Valid(db) && amount > 0
    ensures Post(db, ZeroCustomer, newScore, amount, kind, now).customers == db.customers
    ensures Valid(Post(db, ZeroCustomer, newScore, amount, kind, now))
  {
    var h := HistoryRecord(NilId, amount, kind, now);
    var db' := Post(db, ZeroCustomer, newScore, amount, kind, now);
    assert FindOne(db.customers, ById(NilId)).None?;
    assert db'.history == db.history + [h];
    forall j | 0 <= j < |db'.customers|
      ensures db'.customers[j].score == Balance(db'.history, db'.customers[j].id)
    {
      BalanceAppend(db.history, h, db.customers[j].id);
    }
  }

  // ---------------------------------------------------------------------------
  // Registration

  /** `/start` from an unknown Telegram user appends exactly one customer, at score 0. */
  lemma StartRegistersNew(db: Db, tid: string, firstName: string, username: string, shopifyId: string)
    requires Valid(db)
    requires forall j :: 0 <= j < |db.customers| ==> db.customers[j].telegramUserId != tid
    ensures var db' := Start(db, tid, firstName, username, shopifyId);
      && db'.customers == db.customers + [Customer(db.nextId, firstName, username, tid, shopifyId, 0)]
      && db'.history == db.history
      && db'.nextId == db.nextId + 1
    ensures forall j :: 0 <= j < |db.customers| ==> db.customers[j].id != db.nextId
    ensures forall k :: 0 <= k < |db.history| ==> db.history[k].customerId != db.nextId
  {
  }

  /** `/start` from a registered Telegram user changes nothing, whatever Shopify id comes with it. */
  lemma StartKnownUnchanged(db: Db, tid: string, firstName: string, username: string, shopifyId: string, i: nat)
    requires i < |db.customers| && db.customers[i].telegramUserId == tid
    ensures Start(db, tid, firstName, username, shopifyId) == db
  {
  }

  /** Registration is idempotent: a second `/start` keeps the first one's record and score. */
  lemma StartIdempotent(db: Db, tid: string, firstName: string, username: string, shopifyId: string,
                        firstName': string, username': string, shopifyId': string)
    ensures var db' := Start(db, tid, firstName, username, shopifyId);
      Start(db', tid, firstName', username', shopifyId') == db'
  {
    var db' := Start(db, tid, firstName, username, shopifyId);
    if FindOne(db.customers, ByTelegramUserId(tid)).None? {
      var k := |db.customers|;
      assert db'.customers[k].telegramUserId == tid;
    }
  }

  /** Registration keeps the ledger valid: the new id is fresh, so no history is attributed to it. */
  lemma StartValid(db: Db, tid: string, firstName: string, username: string, shopifyId: string)
    requires Valid(db)
    ensures Valid(Start(db, tid, firstName, username, shopifyId))
  {
    var db' := Start(db, tid, firstName, username, shopifyId);
    if FindOne(db.customers, ByTelegramUserId(tid)).None? {
      BalanceOfUnallocatedId(db.history, db.nextId);
    }
  }

  /** No record names an id at or beyond the allocator, so such an id has balance 0. */
  lemma {:induction false} BalanceOfUnallocatedId(hs: seq<HistoryRecord>, id: ObjectId)
    requires forall k :: 0 <= k < |hs| ==> hs[k].customerId < id
    ensures Balance(hs, id) == 0
    decreases |hs|
  {
    if hs != [] {
      BalanceOfUnallocatedId(hs[..|hs| - 1], id);
    }
  }

  // ---------------------------------------------------------------------------
  // Accrual

  /** The customer an `orders/create` webhook credits: the first one with that
      Shopify id, provided it has a Telegram id. */
  predicate LinkedAt(cs: seq<Customer>, sid: string, i: nat) {
    && i < |cs|
    && cs[i].shopifyCustomerId == sid
    && cs[i].telegramUserId != ""
    && forall j :: 0 <= j < i ==> cs[j].shopifyCustomerId != sid
  }

  /** `orders/create` for a linked customer adds exactly 2 points to that
      customer only and appends one "buy" record of 2. */
  lemma WebhookAccrues(db: Db, sid: string, now: int, i: nat)
    requires Valid(db) && LinkedAt(db.customers, sid, i)
    ensures var c := db.customers[i];
      var db' := OrderWebhook(db, OrdersCreate, Some(sid), now);
      && db'.customers == db.customers[i := c.(score := c.score + OrderPoint)]
      && db'.history == db.history + [HistoryRecord(c.id, OrderPoint, Buy, now)]
      && db'.nextId == db.nextId
  {
    FindOneFirst(db.customers, ByShopifyCustomerId(sid), i);
    SetScoreAt(db.customers, i, db.customers[i].score + OrderPoint);
  }

  /** Any other topic, an unusable payload, or no linked customer: nothing changes. */
  lemma WebhookOtherwiseUnchanged(db: Db, topic: string, sid: Option<string>, now: int)
    requires topic != OrdersCreate || sid.None? || forall i :: !LinkedAt(db.customers, sid.value, i)
    ensures OrderWebhook(db, topic, sid, now) == db
  {
    if topic == OrdersCreate && sid.Some? {
      var f := ByShopifyCustomerId(sid.value);
      match FindOne(db.customers, f)
      case None =>
      case Some(i) => assert !LinkedAt(db.customers, sid.value, i);
    }
  }

  // ---------------------------------------------------------------------------
  // Redemption

  /** The redeem menu offers the exchange buttons exactly when the Telegram
      user is registered with at least `drinkPoint` points. */
  lemma MenuOffersIff(db: Db, tid: string)
    requires Valid(db)
    ensures RedeemMenu(db, tid).Offer? <==>
      exists i :: 0 <= i < |db.customers| && db.customers[i].telegramUserId == tid && db.customers[i].score >= DrinkPoint
  {
    var f := ByTelegramUserId(tid);
    match FindOne(db.customers, f)
    case None =>
    case Some(i) =>
      forall j | 0 <= j < |db.customers| && db.customers[j].telegramUserId == tid
        ensures j == i
      {
        assert !(j < i) && !(i < j);
      }
  }

  /** Every exchange of a registered customer: the score drops by exactly
      `drinkPoint`, whatever it was, and one "redeem" record of 2 is appended. */
  lemma DrinkRedeems(db: Db, tid: string, now: int, i: nat)
    requires Valid(db) && i < |db.customers| && db.customers[i].telegramUserId == tid
    ensures var c := db.customers[i];
      var db' := ExchangeDrink(db, tid, true, now);
      && db'.customers == db.customers[i := c.(score := c.score - DrinkPoint)]
      && db'.history == db.history + [HistoryRecord(c.id, DrinkPoint, Redeem, now)]
      && db'.nextId == db.nextId
  {
    TelegramFirst(db, tid, i);
    SetScoreAt(db.customers, i, db.customers[i].score - DrinkPoint);
  }

  /** A drink exchange by a Telegram user with no customer document updates no
      customer yet appends a "redeem" record under the zero ObjectID. */
  lemma DrinkUnregistered(db: Db, tid: string, now: int)
    requires Valid(db)
    requires forall j :: 0 <= j < |db.customers| ==> db.customers[j].telegramUserId != tid
    ensures var db' := ExchangeDrink(db, tid, true, now);
      && db'.customers == db.customers
      && db'.history == db.history + [HistoryRecord(NilId, DrinkPoint, Redeem, now)]
      && db'.nextId == db.nextId
  {
    PostZeroValid(db, -DrinkPoint, DrinkPoint, Redeem, now);
  }

  /** Without a guard, a drink exchange below `drinkPoint` leaves a negative score. */
  lemma DrinkOverdraws(db: Db, tid: string, now: int, i: nat)
    requires Valid(db) && i < |db.customers| && db.customers[i].telegramUserId == tid
    requires db.customers[i].score < DrinkPoint
    ensures ExchangeDrink(db, tid, true, now).customers[i].score < 0
    ensures !ScoresNonNegative(ExchangeDrink(db, tid, true, now))
  {
    DrinkRedeems(db, tid, now, i);
  }

  /** A reachable instance: register, then press the drink button straight away. */
  lemma FreshCustomerOverdraws()
    ensures var db1 := Start(EmptyDb, "42", "Ann", "ann", "7");
      ExchangeDrink(db1, "42", true, 0).customers == [Customer(1, "Ann", "ann", "42", "7", -2)]
  {
    var db1 := Start(EmptyDb, "42", "Ann", "ann", "7");
    assert db1.customers == [Customer(1, "Ann", "ann", "42", "7", 0)];
    StartValid(EmptyDb, "42", "Ann", "ann", "7");
    DrinkRedeems(db1, "42", 0, 0);
  }

  /** With the balance guard the drink exchange only ever moves a score from at least 2 down by 2. */
  lemma DrinkGuardedRedeems(db: Db, tid: string, markupCleared: bool, now: int, i: nat)
    requires Valid(db) && i < |db.customers| && db.customers[i].telegramUserId == tid
    ensures var c := db.customers[i];
      var db' := ExchangeDrinkGuarded(db, tid, markupCleared, now);
      if markupCleared && c.score >= DrinkPoint then
        && db'.customers == db.customers[i := c.(score := c.score - DrinkPoint)]
        && db'.history == db.history + [HistoryRecord(c.id, DrinkPoint, Redeem, now)]
        && db'.nextId == db.nextId
      else db' == db
  {
    TelegramFirst(db, tid, i);
    SetScoreAt(db.customers, i, db.customers[i].score - DrinkPoint);
  }

  /** When the menu the user pressed on showed the buttons for the current
      state, the unguarded handler does what the guarded one does. */
  lemma MenuProtectsDrink(db: Db, tid: string, markupCleared: bool, now: int)
    requires Valid(db) && RedeemMenu(db, tid).Offer?
    ensures ExchangeDrink(db, tid, markupCleared, now) == ExchangeDrinkGuarded(db, tid, markupCleared, now)
  {
  }

  /** When removing the inline buttons fails, both exchange handlers return
      before touching the database, whatever the score. */
  lemma EditFailedUnchanged(db: Db, tid: string, now: int)
    ensures ExchangeDrink(db, tid, false, now) == db
    ensures ExchangeFood(db, tid, false, now) == db
    ensures ExchangeDrinkGuarded(db, tid, false, now) == db
  {
  }

  /** Food below `foodPoint` is refused with nothing changed. */
  lemma FoodRejected(db: Db, tid: string, markupCleared: bool, now: int)
    requires Valid(db)
    requires forall j :: 0 <= j < |db.customers| && db.customers[j].telegramUserId == tid ==> db.customers[j].score < FoodPoint
    ensures ExchangeFood(db, tid, markupCleared, now) == db
  {
  }

  /** Food at or above `foodPoint`: the score drops by exactly 4 and one "redeem" record of 4 is appended. */
  lemma FoodRedeems(db: Db, tid: string, now: int, i: nat)
    requires Valid(db) && i < |db.customers| && db.customers[i].telegramUserId == tid
    requires db.customers[i].score >= FoodPoint
    ensures var c := db.customers[i];
      var db' := ExchangeFood(db, tid, true, now);
      && db'.customers == db.customers[i := c.(score := c.score - FoodPoint)]
      && db'.history == db.history + [HistoryRecord(c.id, FoodPoint, Redeem, now)]
      && db'.nextId == db.nextId
  {
    TelegramFirst(db, tid, i);
    SetScoreAt(db.customers, i, db.customers[i].score - FoodPoint);
  }

  /** With one document per Telegram id, the document with that id is the one `FindOne` returns. */
  lemma TelegramFirst(db: Db, tid: string, i: nat)
    requires Valid(db) && i < |db.customers| && db.customers[i].telegramUserId == tid
    ensures FindOne(db.customers, ByTelegramUserId(tid)) == Some(i)
  {
    FindOneFirst(db.customers, ByTelegramUserId(tid), i);
  }

  // ---------------------------------------------------------------------------
  // Whole runs

  /** Posting a redemption or accrual for whatever the lookup returned keeps the ledger valid. */
  lemma PostDecodedValid(db: Db, f: Filter, amount: int, kind: Kind, now: int)
    requires Valid(db) && amount > 0
    ensures var c := Decoded(db.customers, f);
      Valid(Post(db, c, c.score + Delta(HistoryRecord(c.id, amount, kind, now)), amount, kind, now))
  {
    var c := Decoded(db.customers, f);
    match FindOne(db.customers, f)
    case None =>
      PostZeroValid(db, c.score + Delta(HistoryRecord(c.id, amount, kind, now)), amount, kind, now);
    case Some(i) =>
      PostRegisteredValid(db, i, amount, kind, now);
  }

  lemma WebhookValid(db: Db, topic: string, sid: Option<string>, now: int)
    requires Valid(db)
    ensures Valid(OrderWebhook(db, topic, sid, now))
  {
    if topic == OrdersCreate && sid.Some? {
      PostDecodedValid(db, ByShopifyCustomerId(sid.value), OrderPoint, Buy, now);
    }
  }

  lemma DrinkValid(db: Db, tid: string, markupCleared: bool, now: int)
    requires Valid(db)
    ensures Valid(ExchangeDrink(db, tid, markupCleared, now))
  {
    PostDecodedValid(db, ByTelegramUserId(tid), DrinkPoint, Redeem, now);
  }

  lemma DrinkGuardedValid(db: Db, tid: string, markupCleared: bool, now: int)
    requires Valid(db)
    ensures Valid(ExchangeDrinkGuarded(db, tid, markupCleared, now))
  {
    PostDecodedValid(db, ByTelegramUserId(tid), DrinkPoint, Redeem, now);
  }

  lemma FoodValid(db: Db, tid: string, markupCleared: bool, now: int)
    requires Valid(db)
    ensures Valid(ExchangeFood(db, tid, markupCleared, now))
  {
    PostDecodedValid(db, ByTelegramUserId(tid), FoodPoint, Redeem, now);
  }

  /** Every request keeps the ledger valid. */
  lemma ApplyValid(db: Db, e: Event, guarded: bool)
    requires Valid(db)
    ensures Valid(Apply(db, e, guarded))
  {
    match e
    case StartCommand(tid, firstName, username, shopifyId) => StartValid(db, tid, firstName, username, shopifyId);
    case Webhook(topic, sid, now) => WebhookValid(db, topic, sid, now);
    case DrinkButton(tid, markupCleared, now) =>
      if guarded {
        DrinkGuardedValid(db, tid, markupCleared, now);
      } else {
        DrinkValid(db, tid, markupCleared, now);
      }
    case FoodButton(tid, markupCleared, now) => FoodValid(db, tid, markupCleared, now);
    case NukeRequest =>
  }

  /** The ledger invariant over any sequence of requests. */
  lemma {:induction false} RunValid(db: Db, es: seq<Event>, guarded: bool)
    requires Valid(db)
    ensures Valid(Run(db, es, guarded))
    decreases |es|
  {
    if es != [] {
      ApplyValid(db, es[0], guarded);
      RunValid(Apply(db, es[0], guarded), es[1..], guarded);
    }
  }

  /** From an empty database, every customer's score is the sum of its "buy"
      amounts minus the sum of its "redeem" amounts, and every amount is positive. */
  lemma ScoreMatchesHistory(es: seq<Event>, guarded: bool)
    ensures var db := Run(EmptyDb, es, guarded);
      && (forall i :: 0 <= i < |db.customers| ==> db.customers[i].score == Balance(db.history, db.customers[i].id))
      && (forall k :: 0 <= k < |db.history| ==> db.history[k].score > 0)
  {
    RunValid(EmptyDb, es, guarded);
  }

  /** Every request changes at most one existing customer, and only its score;
      customers are only ever added at the end. */
  lemma ApplyTouchesOneCustomer(db: Db, e: Event, guarded: bool)
    requires Valid(db) && !e.NukeRequest?
    ensures var cs' := Apply(db, e, guarded).customers;
      && |cs'| >= |db.customers|
      && (forall j :: 0 <= j < |db.customers| ==> cs'[j] == db.customers[j].(score := cs'[j].score))
      && (forall j, k :: 0 <= j < k < |db.customers| ==> cs'[j] == db.customers[j] || cs'[k] == db.customers[k])
  {
    var cs := db.customers;
    var db' := Apply(db, e, guarded);
    match e
    case StartCommand(_, _, _, _) =>
    case Webhook(topic, sid, now) =>
      if topic == OrdersCreate && sid.Some? {
        SetScoreTouchesOne(db, Decoded(cs, ByShopifyCustomerId(sid.value)).id, db'.customers);
      }
    case DrinkButton(tid, _, _) =>
      SetScoreTouchesOne(db, Decoded(cs, ByTelegramUserId(tid)).id, db'.customers);
    case FoodButton(tid, _, _) =>
      SetScoreTouchesOne(db, Decoded(cs, ByTelegramUserId(tid)).id, db'.customers);
  }

  /** `UpdateOne` by `_id` changes at most one document, and only its score. */
  lemma SetScoreTouchesOne(db: Db, id: ObjectId, cs': seq<Customer>)
    requires Valid(db)
    requires cs' == db.customers || exists v :: cs' == SetScore(db.customers, id, v)
    ensures |cs'| == |db.customers|
    ensures forall j :: 0 <= j < |db.customers| ==> cs'[j] == db.customers[j].(score := cs'[j].score)
    ensures forall j, k :: 0 <= j < k < |db.customers| ==> cs'[j] == db.customers[j] || cs'[k] == db.customers[k]
  {
    if cs' != db.customers {
      var v :| cs' == SetScore(db.customers, id, v);
      match FindOne(db.customers, ById(id))
      case None =>
      case Some(i) =>
    }
  }

  /** The history is append-only: a request keeps every earlier record and adds
      at most one; only the nuke request empties it. */
  lemma ApplyAppendsHistory(db: Db, e: Event, guarded: bool)
    ensures var hs' := Apply(db, e, guarded).history;
      if e.NukeRequest? then hs' == []
      else |db.history| <= |hs'| <= |db.history| + 1 && hs'[..|db.history|] == db.history
  {
  }

  /** The nuke request empties both collections. */
  lemma NukeEmpties(db: Db, guarded: bool)
    requires Valid(db)
    ensures var db' := Apply(db, NukeRequest, guarded);
      db'.customers == [] && db'.history == [] && Valid(db')
  {
  }

  // ---------------------------------------------------------------------------
  // The corrected drink exchange

  /** With the guarded drink exchange no sequence of requests from an empty
      database ever produces a negative score. */
  lemma {:induction false} GuardedRunNonNegative(db: Db, es: seq<Event>)
    requires Valid(db) && ScoresNonNegative(db)
    ensures ScoresNonNegative(Run(db, es, true))
    decreases |es|
  {
    if es != [] {
      ApplyGuardedNonNegative(db, es[0]);
      ApplyValid(db, es[0], true);
      GuardedRunNonNegative(Apply(db, es[0], true), es[1..]);
    }
  }

  lemma ApplyGuardedNonNegative(db: Db, e: Event)
    requires Valid(db) && ScoresNonNegative(db)
    ensures ScoresNonNegative(Apply(db, e, true))
  {
    var cs := db.customers;
    match e
    case StartCommand(_, _, _, _) =>
    case Webhook(topic, sid, now) =>
      if topic == OrdersCreate && sid.Some? {
        SetScoreRange(db, ByShopifyCustomerId(sid.value), OrderPoint);
      }
    case DrinkButton(tid, markupCleared, now) =>
      SetScoreRange(db, ByTelegramUserId(tid), -DrinkPoint);
    case FoodButton(tid, markupCleared, now) =>
      SetScoreRange(db, ByTelegramUserId(tid), -FoodPoint);
    case NukeRequest =>
  }

  /** Writing back the found customer's score plus `d` changes only that customer's score. */
  lemma SetScoreRange(db: Db, f: Filter, d: int)
    requires Valid(db)
    ensures var c := Decoded(db.customers, f);
      var cs' := SetScore(db.customers, c.id, c.score + d);
      forall j :: 0 <= j < |cs'| ==> cs'[j].score == db.customers[j].score || cs'[j].score == c.score + d
  {
  }

  /** From an empty database, with the guard, all scores stay non-negative. */
  lemma GuardedNeverNegative(es: seq<Event>)
    ensures ScoresNonNegative(Run(EmptyDb, es, true))
  {
    GuardedRunNonNegative(EmptyDb, es);
  }
}
