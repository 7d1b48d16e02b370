# Loyalty-points ledger of go-pos-bot, in Dafny

The bot (`main.go`) runs a loyalty program for a shop: a Telegram user
registers with `/start` and gets a Shopify customer and a MongoDB customer
document at score 0. Each Shopify `orders/create` webhook for a linked
customer adds 2 points. From the `/redeem_points` menu the user can trade
2 points for a free drink or 4 points for free food. Each exchange creates
a Shopify discount code. Every change of score also inserts one record into
the `history` collection: the customer, the points moved (always positive),
the type (`"buy"` or `"redeem"`) and a timestamp. `/api/nuke` drops the
database.

The model has four modules:

- `Codes` (`codes.dfy`): `generateRandomCode`. It is `strconv.Itoa` of
  `100000 + r`, where the draw `rand.Intn(900000)` is the parameter `r`. The
  module proves that the code is six digits with a non-zero first digit, that
  the code determines `r`, and that every such string is some draw's code.
- `Points` (`points.dfy`): the database as a value. It holds both
  collections in insertion order and the next ObjectID the driver hands out.
  It defines `FindOne` (first match in natural order), `Decode` into a
  zero-valued customer when nothing matched, `UpdateOne` by `_id`, and one
  transition function per handler. It also defines the ledger invariant
  `Valid`, and `Apply`/`Run` over a sequence of requests.
- `Properties` (`properties.dfy`): the lemmas. They cover the exact deltas,
  the food guard, the missing drink guard, registration idempotence, the
  webhook conditions and the frame ("only one customer's score changes").
  They prove the history is append-only. Over any run from an empty
  database, every score equals the sum of that customer's `"buy"` amounts
  minus the sum of its `"redeem"` amounts.
- `Bot` (`ledger.dfy`): class `Ledger`, whose fields are the two collections
  and the ObjectID allocator. Its methods do what the handlers do in the
  handlers' order: generate the code, look up the customer, write back the
  score by `_id`, then append the history record. Each method's `ensures`
  ties the new state to the matching `Points` transition and keeps `Valid`.

Conventions:

- An ObjectID is a `nat`. `0` is the zero ObjectID that `Decode` leaves in
  an empty `Customer`. The driver's ids are `1, 2, 3, …`.
- History records store the ObjectID itself, not its `String()` form.
- Scores are `int`. Only the whole numbers 2 and 4 are ever added to or
  subtracted from 0, so `float64` arithmetic is exact here.
- `main.go` has no pending-code store and no single-use codes. Both
  exchange handlers generate the code first. The drink code goes to Shopify
  and into the reply only after a successful button edit (main.go:401-404,
  413-449, 469). The food code goes to Shopify only after a successful edit
  and when the score is at least 4 (main.go:478-481, 490-492, 494-530); no
  reply shows the food code (main.go:550). In every other case the code is
  discarded. The `Ledger` exchange methods return the code together with a
  flag `sent` that says whether it reached Shopify. History records carry a
  positive amount plus a type, not a signed delta. There is no
  insufficient-balance error (the drink exchange has no balance check at
  all), and the read-modify-write of a score is not transactional.

## Model

| member | source | states |
|---|---|---|
| `Codes.DecimalString` | main.go:209 | `strconv.Itoa` on a non-negative value: at least one digit, all digits, and a leading `'0'` exactly when the value is 0 |
| `Codes.ParseDecimalString` | main.go:209 | reading back the decimal string gives the number |
| `Codes.DecimalStringParse` | main.go:209 | every digit string without a leading zero is the decimal string of its value |
| `Codes.DecimalStringLength` | main.go:209 | a number in [10^(k-1), 10^k) is written with exactly k digits |
| `Codes.GenerateCode` | main.go:208-210 | the code is exactly six digits with a non-zero first digit, and its value is 100000 + r, so distinct draws give distinct codes |
| `Codes.GenerateCodeCovers` | main.go:208-210 | every six-digit code with a non-zero first digit is the code of exactly one draw in [0, 900000) |
| `Points.Decoded` | main.go:156-157 | `FindOne(...).Decode`: the first matching document, or the zero-valued customer when none matches; no contract of its own; specified through `Points.FindOne` and used by `Properties.DrinkUnregistered`, `Properties.FoodRejected` |
| `Points.Post` | main.go:162-177 | write back the score by `_id`, then append one history record; no contract of its own; specified by `Properties.SetScoreAt`, `Properties.BalanceAppend`, `Properties.PostRegisteredValid`, `Properties.PostZeroValid` |
| `Points.Start` | main.go:256-327 | `StartHandler`; no contract of its own; specified by `Properties.StartRegistersNew`, `Properties.StartKnownUnchanged`, `Properties.StartIdempotent`, `Properties.StartValid` |
| `Points.OrderWebhook` | main.go:120-188 | the webhook handler; no contract of its own; specified by `Properties.WebhookAccrues`, `Properties.WebhookOtherwiseUnchanged`, `Properties.WebhookValid` |
| `Points.RedeemMenu` | main.go:360-393 | `RedeemPointsHandler`'s reply; no contract of its own; specified by `Properties.MenuOffersIff`, `Properties.MenuProtectsDrink` |
| `Points.ExchangeDrink` | main.go:395-470 | `ExchangeDrinkHandler` as written; no contract of its own; specified by `Properties.DrinkRedeems`, `Properties.DrinkUnregistered`, `Properties.DrinkOverdraws`, `Properties.EditFailedUnchanged`, `Properties.DrinkValid` |
| `Points.ExchangeDrinkGuarded` | main.go:490-492 | the corrected drink exchange with the food exchange's guard; no contract of its own; specified by `Properties.DrinkGuardedRedeems`, `Properties.DrinkGuardedValid`, `Properties.GuardedNeverNegative` |
| `Points.ExchangeFood` | main.go:472-551 | `ExchangeFoodHandler`; no contract of its own; specified by `Properties.FoodRejected`, `Properties.FoodRedeems`, `Properties.EditFailedUnchanged`, `Properties.FoodValid` |
| `Points.Nuke` | main.go:553-555 | `NukeEndpoint`; no contract of its own; specified by `Properties.NukeEmpties` and `Bot.Ledger.Nuke` |
| `Points.FindOne` | main.go:264-265 | `FindOne` returns the first document in natural order that matches the filter, or reports that none does |
| `Points.SetScore` | main.go:164-168 | `UpdateOne` by `_id` keeps the length, every `_id` and every Telegram id |
| `Properties.SetScoreAt` | main.go:453-457 | when ids are distinct, `UpdateOne` by a customer's `_id` replaces that customer's score and leaves every other document unchanged |
| `Properties.BalanceAppend` | main.go:459-466 | appending a record changes only its own customer's balance, by +amount for "buy" and -amount for "redeem" |
| `Properties.StartRegistersNew` | main.go:264-319 | `/start` from an unknown Telegram id appends exactly one customer, with that Telegram id, the Shopify id, ObjectID `nextId` and score 0; history is unchanged; in a valid database no existing customer and no history record carries `nextId`, so the id is fresh |
| `Properties.StartKnownUnchanged` | main.go:264-267 | `/start` from a registered Telegram id changes nothing |
| `Properties.StartIdempotent` | main.go:256-327 | a second `/start` with the same Telegram id leaves the state of the first, so the original record and score are kept |
| `Properties.StartValid` | main.go:312-319 | registration keeps the ledger invariant: the new ObjectID is fresh, so no history counts against it |
| `Properties.WebhookAccrues` | main.go:136-177 | `orders/create` for the first customer with that Shopify id, when its Telegram id is non-empty, raises that customer's score by exactly 2, leaves all others unchanged and appends exactly one `{2, "buy"}` record |
| `Properties.WebhookOtherwiseUnchanged` | main.go:121-187 | another topic, an unusable payload, or no linked customer leaves the whole state unchanged |
| `Properties.MenuOffersIff` | main.go:365-392 | the redeem menu shows the exchange buttons if and only if the Telegram user is registered with score at least 2 |
| `Properties.DrinkRedeems` | main.go:451-466 | a drink exchange by a registered user lowers that score by exactly 2, whatever it was, and appends one `{2, "redeem"}` record; others are unchanged |
| `Properties.DrinkUnregistered` | main.go:406-466 | a drink exchange by an unregistered user updates no customer but appends a `{2, "redeem"}` record under the zero ObjectID |
| `Properties.DrinkOverdraws` | main.go:451-457 | a drink exchange with score below 2 leaves a negative score |
| `Properties.FreshCustomerOverdraws` | main.go:395-470 | a customer just registered at 0 who presses the drink button ends at -2 |
| `Properties.DrinkGuardedRedeems` | main.go:490-492 | the drink exchange with the food exchange's guard: below 2 nothing changes; otherwise the score drops by 2 and one record is appended |
| `Properties.MenuProtectsDrink` | main.go:369-373 | if the menu showed the buttons for the current state, the unguarded drink exchange acts like the guarded one |
| `Properties.FoodRejected` | main.go:488-492 | a food exchange with score below 4, or by an unregistered user, leaves the whole state unchanged |
| `Properties.FoodRedeems` | main.go:532-547 | a food exchange with score at least 4 lowers that score by exactly 4 and appends one `{4, "redeem"}` record; others are unchanged |
| `Properties.ApplyValid` | main.go:160-177 | every request keeps the ledger invariant: distinct ids and Telegram ids, positive amounts, and score equal to history balance |
| `Properties.RunValid` | main.go:160-177 | the ledger invariant holds after any sequence of requests |
| `Properties.ScoreMatchesHistory` | main.go:171-177 | from an empty database, every customer's score equals its "buy" sum minus its "redeem" sum, and every amount is positive |
| `Properties.ApplyTouchesOneCustomer` | main.go:534-538 | every request other than nuke changes only the score of at most one existing customer, and never removes or reorders customers |
| `Properties.EditFailedUnchanged` | main.go:401-404 | when removing the inline buttons fails, the drink exchange (as written and guarded) and the food exchange leave the whole state unchanged, whatever the score |
| `Properties.ApplyAppendsHistory` | main.go:540-547 | a request keeps every earlier history record and adds at most one; only the nuke request empties the history |
| `Properties.NukeEmpties` | main.go:553-555 | after the nuke request both collections are empty and the invariant still holds |
| `Properties.GuardedNeverNegative` | main.go:490-492 | with the guarded drink exchange, no run from an empty database ever produces a negative score |
| `Bot.Ledger.Start` | main.go:256-327 | the handler's new state is `Points.Start` of the old one, and the invariant is kept |
| `Bot.Ledger.OrderWebhook` | main.go:120-188 | the handler's new state is `Points.OrderWebhook` of the old one, and the invariant is kept |
| `Bot.Ledger.RedeemPoints` | main.go:360-393 | changes nothing; the menu offers the buttons exactly when the user is registered with at least 2 points |
| `Bot.Ledger.ExchangeDrink` | main.go:395-470 | returns the generated code, which reaches Shopify and the reply exactly when the button edit succeeded and is discarded otherwise; the new state is `Points.ExchangeDrink` of the old one, and the invariant is kept |
| `Bot.Ledger.ExchangeFood` | main.go:472-551 | returns the generated code, which reaches Shopify exactly when the button edit succeeded and the score is at least 4 and is discarded otherwise; the new state is `Points.ExchangeFood` of the old one, and the invariant is kept |
| `Bot.Ledger.Nuke` | main.go:553-555 | the new state is `Points.Nuke` of the old one: both collections are empty afterwards and the ObjectID allocator is untouched |

## Findings

| source | as written | input that shows it | evidently intended | confidence | as-written member | corrected member |
|---|---|---|---|---|---|---|
| main.go:451-466 | `ExchangeDrinkHandler` subtracts `drinkPoint` with no balance check. An unregistered user's zero-valued record also yields a `"redeem"` history entry under the zero ObjectID | register a user (score 0), then press a drink button that is still on screen from an earlier menu: score becomes -2 | the same guard as `ExchangeFoodHandler` (main.go:490-492) with `drinkPoint`, so a score never goes negative | medium, not executed | `Points.ExchangeDrink` (shown by `Properties.FreshCustomerOverdraws`, `Properties.DrinkOverdraws`) | `Points.ExchangeDrinkGuarded` (proved by `Properties.DrinkGuardedRedeems`, `Properties.GuardedNeverNegative`) |

`Bot.Ledger.ExchangeDrink` keeps the as-written behaviour because it models
the handler. The request-sequence lemmas take a `guarded` flag. The
ledger-balance invariant holds under both versions. Non-negativity holds
only for the corrected one.

## Left out

- Telegram wiring, replies, `sendMessage`, `TextHandler`, `GetCustomerInfoHandler` and QR rendering (main.go:92-118, 192-206, 329-358): transport and UI only.
- The Shopify REST calls (main.go:269-310, 413-449, 494-530): foreign network calls. The Shopify id that customer creation returns is a parameter of `Start`. Their `log.Fatalf` failure branches abort the process and are outside the model. So is `log.Fatal` on a `FindOne` error other than "no documents" (main.go:321-322).
- `c.Edit` (main.go:401-404, 478-481): its outcome is the parameter `markupCleared`. On failure the handler returns before touching the database.
- Webhook body reading, JSON decoding and type assertions (main.go:121-149): the extracted Shopify id is an `Option<string>`. `None` covers every error response. The `%.0f` formatting of the id is not modelled. `orders/updated` is a no-op and is covered by "any other topic".
- MongoDB itself, `GetCustomersEndpoint` and `GetHistoriesEndpoint` (main.go:212-254): read-only listings. The collections are in-memory sequences. `omitempty` tags, indexes and write errors are not modelled; each write is assumed to succeed. In particular, the `InsertOne` of `StartHandler` (main.go:319) runs under the 5-second context created at main.go:261, after the Shopify call (main.go:286-307), which has no timeout. If Shopify answers slowly, the insert fails and its error is ignored: the Shopify customer exists, no document is written, the user still gets the greeting, and the next `/start` creates a second Shopify customer. The model always inserts.
- ObjectID generation: a counter stands in for the driver, and `Nuke` does not reset it.
- `time.Now()` timestamps and the `rand.Intn` draw: parameters.
- Concurrency: the bot goroutine and the HTTP server run handlers concurrently. The read-modify-write score updates are not transactional, so lost updates are possible in the program. The model runs each handler as one atomic step and does not capture them.
- `float64` scores: modelled as `int`. Rounding beyond 2^53 points is not modelled.
- A pending-code store (put/take, expiry, single-use consumption): `main.go` has none. A generated code either goes to Shopify in the same request or is discarded (see the conventions above); nothing keeps codes, so there is nothing to model.
