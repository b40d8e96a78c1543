/**
  The data the bot, the webhook server and the admin tool share: the
  `users` collection keyed by `user_id` and the `payments` collection keyed
  by `payment_id` of the `hack_academy_bot` database. Both keys carry a
  unique index, so each collection is a map from its key to one document.
  Times are whole seconds; prices and amounts are integer cents.
*/
module Store {
  import opened Wrappers

  /** A decoded JSON value. Numbers are integers in this model. */
  datatype Json =
    | JNull
    | JBool(b: bool)
    | JNum(n: int)
    | JStr(s: string)
    | JArr(items: seq<Json>)
    | JObj(fields: map<string, Json>)

  /** Python truthiness of a decoded JSON value (`if value:`). */
  predicate Truthy(v: Json) {
    match v
    case JNull => false
    case JBool(b) => b
    case JNum(n) => n != 0
    case JStr(s) => s != ""
    case JArr(items) => items != []
    case JObj(fields) => fields != map[]
  }

  /** `obj.get(key)`: the value under `key`, or None (JSON null) when absent. */
  function Get(fields: map<string, Json>, key: string): Json {
    if key in fields then fields[key] else JNull
  }

  /** Telegram user ids. */
  type UserId = int

  /** The gateway-assigned payment id, stored and matched as the JSON value it came as. */
  type PaymentId = Json

  const Day: int := 86400
  const SubscriptionDays: int := 30
  /** Every activation grants 30 days. */
  const SubscriptionLength: int := SubscriptionDays * Day

  /** The calendar day of a time (days since the epoch): what the first ten characters of its ISO form show. */
  function DayOf(t: int): int {
    t / Day
  }

  const StatusActive := "active"
  const StatusExpired := "expired"
  const StatusRevoked := "revoked"

  /**
    A document of the `users` collection, without its `user_id` (the map key).
    Every field is optional: a document holds only the fields some write set.
  */
  datatype User = User(
    username: Option<string>,
    firstSeen: Option<int>,
    lastInteraction: Option<int>,
    subscriptionPlan: Option<string>,
    subscriptionStart: Option<int>,
    subscriptionEnd: Option<int>,
    status: Option<string>,
    expiredAt: Option<int>,
    revokedAt: Option<int>)

  /** The document an upsert creates before applying its `$set`: nothing but the key. */
  const EmptyUser := User(None, None, None, None, None, None, None, None, None)

  /** The two gateway statuses that count as paid: `finished` and `confirmed`. */
  predicate IsPaidStatus(status: Json) {
    status == JStr("finished") || status == JStr("confirmed")
  }

  /** A document of the `payments` collection, without its `payment_id` (the map key). */
  datatype Payment = Payment(
    userId: UserId,
    plan: string,
    amount: Option<int>,
    status: Json,
    createdAt: int,
    paymentUrl: Json,
    webhookData: Option<map<string, Json>>,
    updatedAt: Option<int>)

  /** The `hack_academy_bot` database: both collections, updated in place by every process. */
  class Database {
    var users: map<UserId, User>
    var payments: map<PaymentId, Payment>

    constructor ()
      ensures users == map[] && payments == map[]
    {
      users := map[];
      payments := map[];
    }
  }
}
