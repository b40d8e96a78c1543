/**
  The webhook server's `POST /payment_webhook`: the NOWPayments instant
  payment notification. A request is checked in order (signature header,
  signature, body, order id) and rejected with 400 at the first failure;
  an accepted request overwrites the status of the payment it names and,
  for a finished or confirmed payment, activates the subscription its
  order id names. Any exception gives 500.
*/
module Webhook {
  import opened Wrappers
  import opened Store
  import opened Plans
  import opened Subscription
  import OrderId

  /** HMAC-SHA512 of a body under a key, as lowercase hex; the digest itself is not modelled. */
  type HexDigest = (string, string) -> string

  /**
    verify_ipn_signature. A missing IPN_SECRET_KEY makes computing the
    expected digest raise, which gives False; otherwise the signature must
    equal the expected digest of the raw body.
  */
  function VerifyIpnSignature(hmacSha512: HexDigest, secret: Option<string>, data: string, signature: string): (valid: bool)
    ensures secret.None? ==> !valid
    ensures secret.Some? ==> (valid <==> signature == hmacSha512(secret.value, data))
  {
    match secret
    case None => false
    case Some(key) => signature == hmacSha512(key, data)
  }

  /**
    A notification as it arrives: the `x-nowpayments-sig` header, the raw
    body and the body decoded as JSON (None when it does not decode).
  */
  datatype Request = Request(signature: Option<string>, rawBody: string, json: Option<Json>)

  /** The JSON answers of the endpoint. */
  datatype Reply =
    | NoSignature           // 400 'No signature'
    | InvalidSignature      // 400 'Invalid signature'
    | NoOrderId             // 400 'No order_id'
    | InvalidOrderIdFormat  // 400 'Invalid order_id format'
    | OrderIdParseError     // 400 'Error parsing order_id'
    | Accepted              // 200 {'status': 'success'}
    | InternalError         // 500 'Internal server error'

  function StatusCode(reply: Reply): (code: int)
    ensures code == 200 <==> reply == Accepted
    ensures code == 500 <==> reply == InternalError
    ensures code == 200 || code == 400 || code == 500
  {
    match reply
    case Accepted => 200
    case InternalError => 500
    case _ => 400
  }

  /**
    The payment update: the record whose `payment_id` matches gets the
    notified status, the whole notification and the time; there is no
    upsert, so an unknown id changes nothing.
  */
  function RecordNotification(
    payments: map<PaymentId, Payment>, paymentId: Json, status: Json, data: map<string, Json>, now: int): map<PaymentId, Payment>
  {
    if paymentId in payments then
      payments[paymentId := payments[paymentId].(status := status, webhookData := Some(data), updatedAt := Some(now))]
    else payments
  }

  /** The answer of one request and the two tables after it. */
  datatype Outcome = Outcome(reply: Reply, users: map<UserId, User>, payments: map<PaymentId, Payment>)

  /**
    payment_webhook as a function of the configuration, the tables before
    the request, the request, the outcome of the Telegram calls a channel
    grant makes and the clock.
  */
  function WebhookOutcome(
    hmacSha512: HexDigest, ipnSecret: Option<string>, plans: map<string, Plan>, channels: ChannelIds,
    users: map<UserId, User>, payments: map<PaymentId, Payment>,
    req: Request, telegramOk: bool, now: int): Outcome
  {
    if req.signature.None? || req.signature.value == "" then Outcome(NoSignature, users, payments)
    else if !VerifyIpnSignature(hmacSha512, ipnSecret, req.rawBody, req.signature.value) then Outcome(InvalidSignature, users, payments)
    // `webhook_data.get` on a body that is not a JSON object raises
    else if req.json.None? || !req.json.value.JObj? then Outcome(InternalError, users, payments)
    else
      var data := req.json.value.fields;
      var orderId := Get(data, "order_id");
      if !Truthy(orderId) then Outcome(NoOrderId, users, payments)
      // `.split` on anything but a string raises AttributeError, which the inner handler does not catch
      else if !orderId.JStr? then Outcome(InternalError, users, payments)
      else match OrderId.Parse(orderId.s)
        case Failure(BadFormat) => Outcome(InvalidOrderIdFormat, users, payments)
        case Failure(BadUserId) => Outcome(OrderIdParseError, users, payments)
        case Success((userId, plan)) =>
          var status := Get(data, "payment_status");
          var payments' := RecordNotification(payments, Get(data, "payment_id"), status, data, now);
          var users' :=
            if IsPaidStatus(status) then ActivationOutcome(users, plans, channels, userId, plan, telegramOk, now).users
            else users;
          Outcome(Accepted, users', payments')
  }

  /** The webhook process: its configuration and the database it writes. */
  class WebhookServer {
    const db: Database
    const hmacSha512: HexDigest
    const ipnSecret: Option<string>
    const plans: map<string, Plan>
    const channels: ChannelIds

    /** The module-level set-up: the plan table at the given prices and the channel ids from the environment. */
    constructor (db: Database, hmacSha512: HexDigest, ipnSecret: Option<string>, prices: Prices, channels: ChannelIds)
      ensures this.db == db && this.hmacSha512 == hmacSha512 && this.ipnSecret == ipnSecret
      ensures this.plans == PlanTable(prices) && this.channels == channels
    {
      this.db := db;
      this.hmacSha512 := hmacSha512;
      this.ipnSecret := ipnSecret;
      this.plans := PlanTable(prices);
      this.channels := channels;
    }

    /**
      handle_successful_payment: grant the channel, and only if that worked
      write the activation to the user's record.
    */
    method HandleSuccessfulPayment(userId: UserId, plan: string, telegramOk: bool, now: int) returns (success: bool)
      modifies db`users
      ensures Activation(success, db.users) == ActivationOutcome(old(db.users), plans, channels, userId, plan, telegramOk, now)
    {
      success := AddedToChannel(plans, channels, plan, telegramOk);
      if success {
        if userId in db.users {
          db.users := db.users[userId := Activated(db.users[userId], plan, now)];
        }
      }
    }

    /** payment_webhook: the checks with their early returns, then the two writes. */
    method PaymentWebhook(req: Request, telegramOk: bool, now: int) returns (reply: Reply)
      modifies db
      ensures Outcome(reply, db.users, db.payments)
           == WebhookOutcome(hmacSha512, ipnSecret, plans, channels, old(db.users), old(db.payments), req, telegramOk, now)
    {
      if req.signature.None? || req.signature.value == "" {
        return NoSignature;
      }
      var rawData := req.rawBody;
      if !VerifyIpnSignature(hmacSha512, ipnSecret, rawData, req.signature.value) {
        return InvalidSignature;
      }
      if req.json.None? || !req.json.value.JObj? {
        return InternalError;
      }
      var webhookData := req.json.value.fields;
      var paymentStatus := Get(webhookData, "payment_status");
      var orderId := Get(webhookData, "order_id");
      if !Truthy(orderId) {
        return NoOrderId;
      }
      if !orderId.JStr? {
        return InternalError;
      }
      var parsed := OrderId.Parse(orderId.s);
      if parsed.Failure? {
        if parsed.error == OrderId.BadFormat {
          return InvalidOrderIdFormat;
        }
        return OrderIdParseError;
      }
      var userId, plan := parsed.value.0, parsed.value.1;
      var paymentId := Get(webhookData, "payment_id");
      if paymentId in db.payments {
        db.payments := db.payments[paymentId := db.payments[paymentId].(
          status := paymentStatus, webhookData := Some(webhookData), updatedAt := Some(now))];
      }
      if IsPaidStatus(paymentStatus) {
        var success := HandleSuccessfulPayment(userId, plan, telegramOk, now);
      }
      return Accepted;
    }
  }

  // -----------------------------------------------------------------------
  // properties of the endpoint
  // -----------------------------------------------------------------------

  /**
    Every rejection happens before the first write: whatever the answer is
    other than 200, both tables are as they were; and a 200 is given
    exactly to requests that pass all four checks.
  */
  lemma RejectionsWriteNothing(
    hmacSha512: HexDigest, ipnSecret: Option<string>, plans: map<string, Plan>, channels: ChannelIds,
    users: map<UserId, User>, payments: map<PaymentId, Payment>, req: Request, telegramOk: bool, now: int)
    ensures var o := WebhookOutcome(hmacSha512, ipnSecret, plans, channels, users, payments, req, telegramOk, now);
      StatusCode(o.reply) != 200 ==> o.users == users && o.payments == payments
    ensures var o := WebhookOutcome(hmacSha512, ipnSecret, plans, channels, users, payments, req, telegramOk, now);
      o.reply == Accepted <==>
        && req.signature.Some? && req.signature.value != ""
        && VerifyIpnSignature(hmacSha512, ipnSecret, req.rawBody, req.signature.value)
        && req.json.Some? && req.json.value.JObj?
        && Get(req.json.value.fields, "order_id").JStr?
        && Get(req.json.value.fields, "order_id").s != ""
        && OrderId.Parse(Get(req.json.value.fields, "order_id").s).Success?
  {
  }

  /** Each check, failing first, gives its own 400 answer. */
  lemma RejectionReasons(
    hmacSha512: HexDigest, ipnSecret: Option<string>, plans: map<string, Plan>, channels: ChannelIds,
    users: map<UserId, User>, payments: map<PaymentId, Payment>, req: Request, telegramOk: bool, now: int)
    ensures var o := WebhookOutcome(hmacSha512, ipnSecret, plans, channels, users, payments, req, telegramOk, now);
      && ((req.signature.None? || req.signature.value == "") ==> o.reply == NoSignature)
      && (req.signature.Some? && req.signature.value != "" && ipnSecret.None? ==> o.reply == InvalidSignature)
      && ((req.signature.Some? && ipnSecret.Some? && req.signature.value != ""
           && req.signature.value != hmacSha512(ipnSecret.value, req.rawBody)) ==> o.reply == InvalidSignature)
  {
  }

  /** The answer to a signed JSON object, by its order id. */
  lemma OrderIdReplies(
    hmacSha512: HexDigest, ipnSecret: Option<string>, plans: map<string, Plan>, channels: ChannelIds,
    users: map<UserId, User>, payments: map<PaymentId, Payment>,
    signature: string, rawBody: string, data: map<string, Json>, telegramOk: bool, now: int)
    requires signature != "" && VerifyIpnSignature(hmacSha512, ipnSecret, rawBody, signature)
    ensures var orderId := Get(data, "order_id");
      var o := WebhookOutcome(hmacSha512, ipnSecret, plans, channels, users, payments,
                              Request(Some(signature), rawBody, Some(JObj(data))), telegramOk, now);
      && (!Truthy(orderId) ==> o.reply == NoOrderId)
      && (Truthy(orderId) && !orderId.JStr? ==> o.reply == InternalError)
      && (orderId.JStr? && orderId.s != "" && OrderId.Parse(orderId.s) == Failure(OrderId.BadFormat) ==> o.reply == InvalidOrderIdFormat)
      && (orderId.JStr? && orderId.s != "" && OrderId.Parse(orderId.s) == Failure(OrderId.BadUserId) ==> o.reply == OrderIdParseError)
  {
  }

  /**
    An accepted notification overwrites the named payment's status with the
    notified one whatever it was before (no terminal status is kept),
    stores the notification and the time, and keeps the rest of that record
    and every other record; an unknown payment id creates nothing.
  */
  lemma StatusOverwritten(payments: map<PaymentId, Payment>, paymentId: Json, status: Json, data: map<string, Json>, now: int)
    ensures var ps := RecordNotification(payments, paymentId, status, data, now);
      && ps.Keys == payments.Keys
      && (forall k :: k in payments && k != paymentId ==> ps[k] == payments[k])
      && (paymentId in payments ==>
            && ps[paymentId].status == status
            && ps[paymentId].webhookData == Some(data)
            && ps[paymentId].updatedAt == Some(now)
            && ps[paymentId].userId == payments[paymentId].userId
            && ps[paymentId].plan == payments[paymentId].plan
            && ps[paymentId].amount == payments[paymentId].amount
            && ps[paymentId].createdAt == payments[paymentId].createdAt
            && ps[paymentId].paymentUrl == payments[paymentId].paymentUrl)
  {
  }

  /**
    For an accepted request with order id for `(userId, plan)`: the payments
    table gets the status update; the users table changes (by an
    activation of that user and plan) only when the notified status is
    finished or confirmed and the channel grant succeeds. Any other status,
    failed, refunded and expired among them, writes only the payment.
  */
  lemma AcceptedEffect(
    hmacSha512: HexDigest, ipnSecret: Option<string>, plans: map<string, Plan>, channels: ChannelIds,
    users: map<UserId, User>, payments: map<PaymentId, Payment>,
    signature: string, rawBody: string, data: map<string, Json>, telegramOk: bool, now: int,
    userId: int, plan: string)
    requires signature != "" && VerifyIpnSignature(hmacSha512, ipnSecret, rawBody, signature)
    requires Get(data, "order_id").JStr? && OrderId.Parse(Get(data, "order_id").s) == Success((userId, plan))
    ensures var status := Get(data, "payment_status");
      var o := WebhookOutcome(hmacSha512, ipnSecret, plans, channels, users, payments,
                              Request(Some(signature), rawBody, Some(JObj(data))), telegramOk, now);
      && o.reply == Accepted
      && o.payments == RecordNotification(payments, Get(data, "payment_id"), status, data, now)
      && (IsPaidStatus(status) && AddedToChannel(plans, channels, plan, telegramOk) ==> o.users == Activate(users, userId, plan, now))
      && (!(IsPaidStatus(status) && AddedToChannel(plans, channels, plan, telegramOk)) ==> o.users == users)
  {
    var orderId := Get(data, "order_id");
    assert Truthy(orderId) by {
      OrderId.ParseAccepted(orderId.s);
    }
  }

  /**
    The answer never depends on the tables or on the channel grant: a
    notification whose grant fails is still answered 200.
  */
  lemma ReplyIndependentOfState(
    hmacSha512: HexDigest, ipnSecret: Option<string>, plans: map<string, Plan>, channels: ChannelIds,
    users1: map<UserId, User>, payments1: map<PaymentId, Payment>, ok1: bool, now1: int,
    users2: map<UserId, User>, payments2: map<PaymentId, Payment>, ok2: bool, now2: int, req: Request)
    ensures WebhookOutcome(hmacSha512, ipnSecret, plans, channels, users1, payments1, req, ok1, now1).reply
         == WebhookOutcome(hmacSha512, ipnSecret, plans, channels, users2, payments2, req, ok2, now2).reply
  {
  }

  /**
    A repeated delivery of the same notification gives the same answer, and
    the users table ends as if only the second had arrived: the
    subscription is reset to 30 days from the second delivery, not
    extended by another 30 days.
  */
  lemma DuplicateDelivery(
    hmacSha512: HexDigest, ipnSecret: Option<string>, plans: map<string, Plan>, channels: ChannelIds,
    users: map<UserId, User>, payments: map<PaymentId, Payment>, req: Request, telegramOk: bool, t1: int, t2: int)
    ensures var o1 := WebhookOutcome(hmacSha512, ipnSecret, plans, channels, users, payments, req, telegramOk, t1);
      var o2 := WebhookOutcome(hmacSha512, ipnSecret, plans, channels, o1.users, o1.payments, req, telegramOk, t2);
      && o2.reply == o1.reply
      && o2.users == WebhookOutcome(hmacSha512, ipnSecret, plans, channels, users, payments, req, telegramOk, t2).users
  {
    var o1 := WebhookOutcome(hmacSha512, ipnSecret, plans, channels, users, payments, req, telegramOk, t1);
    if o1.reply == Accepted {
      var data := req.json.value.fields;
      var parsed := OrderId.Parse(Get(data, "order_id").s);
      ActivateResets(users, parsed.value.0, parsed.value.1, t1, parsed.value.1, t2);
    }
  }
}
