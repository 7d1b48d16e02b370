/** The handlers as the bot runs them: one `Ledger` object holds the two
    collections of the `pos` database, and each handler reads a customer,
    writes back its score by `_id` and inserts a history record, in that
    order. Each method is tied to its transition in `Points`, whose
    properties are proved in `Properties`. */
module Bot {
  import opened Codes
  import opened Points
  import Properties

  class Ledger {
    /** The `customer` collection, in natural order. */
    var customers: seq<Customer>
    /** The `history` collection, in insertion order. */
    var history: seq<HistoryRecord>
    /** The next ObjectID the driver allocates on insert. */
    var nextId: ObjectId

    function State(): Db
      reads this
    {
      Db(customers, history, nextId)
    }

    ghost predicate Valid()
      reads this
    {
      Points.Valid(State())
    }

    constructor ()
      ensures Valid()
      ensures State() == EmptyDb
    {
      customers := [];
      history := [];
      nextId := 1;
    }

    /** `StartHandler`; `shopifyId` is the id the Shopify customer-creation call returned. */
    method Start(tid: string, firstName: string, username: string, shopifyId: string)
      requires Valid()
      modifies this
      ensures Valid()
      ensures State() == Points.Start(old(State()), tid, firstName, username, shopifyId)
    {
      Properties.StartValid(State(), tid, firstName, username, shopifyId);
      var found := FindOne(customers, ByTelegramUserId(tid));
      if found.None? {
        customers := customers + [Customer(nextId, firstName, username, tid, shopifyId, 0)];
        nextId := nextId + 1;
      }
    }

    /** The `/api/shopify/webhook` handler. */
    method OrderWebhook(topic: string, sid: Option<string>, now: int)
      requires Valid()
      modifies this
      ensures Valid()
      ensures State() == Points.OrderWebhook(old(State()), topic, sid, now)
    {
      Properties.WebhookValid(State(), topic, sid, now);
      if sid.Some? && topic == OrdersCreate {
        var c := Decoded(customers, ByShopifyCustomerId(sid.value));
        if c.telegramUserId != "" {
          var newScore := c.score + OrderPoint;
          customers := SetScore(customers, c.id, newScore);
          history := history + [HistoryRecord(c.id, OrderPoint, Buy, now)];
        }
      }
    }

    /** `RedeemPointsHandler`: reads only. */
    method RedeemPoints(tid: string) returns (menu: Menu)
      requires Valid()
      ensures menu == RedeemMenu(State(), tid)
      ensures menu.Offer? <==>
        exists i :: 0 <= i < |customers| && customers[i].telegramUserId == tid && customers[i].score >= DrinkPoint
    {
      Properties.MenuOffersIff(State(), tid);
      var customer := Decoded(customers, ByTelegramUserId(tid));
      if customer.score < DrinkPoint {
        menu := NoOffer(customer.score);
      } else {
        menu := Offer(customer.score);
      }
    }

    /** `ExchangeDrinkHandler`: `r` is the draw behind the discount code,
        which is generated before anything else. Only when the button edit
        succeeds (`markupCleared`) does the code go to Shopify and into the
        reply (`sent`); otherwise the returned `code` is discarded. */
    method ExchangeDrink(tid: string, markupCleared: bool, r: int, now: int) returns (code: string, sent: bool)
      requires Valid() && 0 <= r < CodeRange
      modifies this
      ensures Valid()
      ensures code == GenerateCode(r)
      ensures sent <==> markupCleared
      ensures State() == Points.ExchangeDrink(old(State()), tid, markupCleared, now)
    {
      code := GenerateCode(r);
      sent := false;
      Properties.DrinkValid(State(), tid, markupCleared, now);
      if !markupCleared {
        return;
      }
      sent := true;
      var customer := Decoded(customers, ByTelegramUserId(tid));
      var newScore := customer.score - DrinkPoint;
      customers := SetScore(customers, customer.id, newScore);
      history := history + [HistoryRecord(customer.id, DrinkPoint, Redeem, now)];
    }

    /** `ExchangeFoodHandler`: `r` is the draw behind the discount code,
        which is generated before anything else. The code goes to Shopify
        (`sent`) only when the button edit succeeds and the score is at least
        `foodPoint`; no reply shows it, and in every other case the returned
        `code` is discarded. */
    method ExchangeFood(tid: string, markupCleared: bool, r: int, now: int) returns (code: string, sent: bool)
      requires Valid() && 0 <= r < CodeRange
      modifies this
      ensures Valid()
      ensures code == GenerateCode(r)
      ensures sent <==> markupCleared && Decoded(old(customers), ByTelegramUserId(tid)).score >= FoodPoint
      ensures State() == Points.ExchangeFood(old(State()), tid, markupCleared, now)
    {
      code := GenerateCode(r);
      sent := false;
      Properties.FoodValid(State(), tid, markupCleared, now);
      if !markupCleared {
        return;
      }
      var customer := Decoded(customers, ByTelegramUserId(tid));
      if customer.score < FoodPoint {
        return;
      }
      sent := true;
      var newScore := customer.score - FoodPoint;
      customers := SetScore(customers, customer.id, newScore);
      history := history + [HistoryRecord(customer.id, FoodPoint, Redeem, now)];
    }

    /** `NukeEndpoint`: drops both collections. */
    method Nuke()
      requires Valid()
      modifies this
      ensures Valid()
      ensures State() == Points.Nuke(old(State()))
      ensures customers == [] && history == [] && nextId == old(nextId)
    {
      customers := [];
      history := [];
    }
  }
}
