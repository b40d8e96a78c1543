/**
  The Telegram bot `HackAcademyBot`: `/start` (the active check and the
  user upsert), the plan buttons (plan key, invoice request, payment
  insert), activation after payment, expiry and `/status`.
*/
module TelegramBot {
  import opened Wrappers
  import opened Store
  import opened Text
  import opened Plans
  import opened Subscription
  import OrderId

  // -----------------------------------------------------------------------
  // /start
  // -----------------------------------------------------------------------

  /** A user already subscribed: a stored end date strictly later than now. */
  predicate HasActiveSubscription(users: map<UserId, User>, userId: UserId, now: int) {
    userId in users && users[userId].subscriptionEnd.Some? && users[userId].subscriptionEnd.value > now
  }

  /** `username or "Unknown"`: a missing or empty Telegram username becomes "Unknown". */
  function DisplayName(username: Option<string>): (name: string)
    ensures name != ""
    ensures username.Some? && username.value != "" ==> name == username.value
    ensures !(username.Some? && username.value != "") ==> name == "Unknown"
  {
    if username.Some? && username.value != "" then username.value else "Unknown"
  }

  /** The `$set` of the /start upsert: username, first seen and last interaction, all stamped now. */
  function Registered(u: User, username: Option<string>, now: int): User {
    u.(username := Some(DisplayName(username)), firstSeen := Some(now), lastInteraction := Some(now))
  }

  /** The upsert: an absent user is created from nothing but its key. */
  function Register(users: map<UserId, User>, userId: UserId, username: Option<string>, now: int): map<UserId, User> {
    users[userId := Registered(if userId in users then users[userId] else EmptyUser, username, now)]
  }

  /** What /start sends: a welcome back with the end date's calendar day, or the plan menu. */
  datatype StartReply = WelcomeBack(expiresOn: int) | ChoosePlan

  datatype StartOutcome = StartOutcome(reply: StartReply, users: map<UserId, User>)

  /**
    start_command. An already subscribed user gets the welcome back and no
    write. Otherwise the plan menu is sent first and the upsert follows, so
    a failed send (`replyOk` false) raises before the upsert.
  */
  function StartOutcomeOf(users: map<UserId, User>, userId: UserId, username: Option<string>, now: int, replyOk: bool): StartOutcome {
    if HasActiveSubscription(users, userId, now) then StartOutcome(WelcomeBack(DayOf(users[userId].subscriptionEnd.value)), users)
    else if !replyOk then StartOutcome(ChoosePlan, users)
    else StartOutcome(ChoosePlan, Register(users, userId, username, now))
  }

  // -----------------------------------------------------------------------
  // plan selection and checkout
  // -----------------------------------------------------------------------

  /** The prefix of the plan buttons' callback data. */
  const ButtonPrefix := "plan_"

  /** `query.data.replace('plan_', '')`. */
  function PlanKey(callbackData: string): string {
    RemoveAll(callbackData, ButtonPrefix)
  }

  /** The body of the invoice request create_nowpayments_payment posts. */
  datatype InvoiceRequest = InvoiceRequest(priceAmount: int, priceCurrency: string, orderId: string, orderDescription: string)

  function InvoiceFor(plans: map<string, Plan>, userId: UserId, plan: string, now: int): InvoiceRequest
    requires plan in plans
  {
    InvoiceRequest(plans[plan].price, "USD", OrderId.Build(userId, plan, now),
                   "Hack Academy " + plans[plan].name + " Subscription")
  }

  /** The gateway's HTTP answer: a status code and the body decoded as JSON, if it decodes. */
  datatype HttpReply = HttpReply(statusCode: int, body: Option<Json>)

  /**
    What create_nowpayments_payment returns: the decoded body of a 200
    answer; None for another status code, a body that does not decode, or a
    request that raised (`gateway` None).
  */
  function PaymentData(gateway: Option<HttpReply>): (data: Option<Json>)
    ensures data.Some? <==> gateway.Some? && gateway.value.statusCode == 200 && gateway.value.body.Some?
    ensures data.Some? ==> data.value == gateway.value.body.value
  {
    match gateway
    case None => None
    case Some(r) => if r.statusCode == 200 then r.body else None
  }

  /** The record plan_callback inserts: status waiting, the plan's price, created now. */
  function NewPayment(userId: UserId, plan: string, price: int, now: int, invoiceUrl: Json): Payment {
    Payment(userId, plan, Some(price), JStr("waiting"), now, invoiceUrl, None, None)
  }

  /** What plan_callback ends with. */
  datatype CheckoutReply =
    | InvalidPlan            // 'Invalid plan selected.'
    | PaymentFailed          // 'Failed to create payment.'
    | PayNow(invoiceUrl: Json)
    | CheckoutRaised         // a missing key in the gateway data, or a duplicate payment id

  /** The answer, the invoice request sent (if any) and the payments table after the callback. */
  datatype Checkout = Checkout(reply: CheckoutReply, request: Option<InvoiceRequest>, payments: map<PaymentId, Payment>)

  /** Whether the gateway data can be stored: a JSON object holding both `payment_id` and `invoice_url`. */
  predicate Storable(data: Json) {
    data.JObj? && "payment_id" in data.fields && "invoice_url" in data.fields
  }

  /**
    Whether create_nowpayments_payment can build its request: the order id
    renders the user id and the timestamp with `str`, which raises inside
    the function's `try` (so it returns None) beyond MaxStrDigits digits.
  */
  predicate InvoiceBuildable(userId: UserId, now: int) {
    StrFits(userId) && StrFits(now)
  }

  /**
    plan_callback: extract and check the plan key, request an invoice, and
    on truthy gateway data insert the payment record. Reading a missing key
    of the data (or indexing data that is not an object) raises, and so does
    inserting a payment id already stored (the unique index).
  */
  function CheckoutOutcome(
    plans: map<string, Plan>, payments: map<PaymentId, Payment>,
    userId: UserId, callbackData: string, gateway: Option<HttpReply>, now: int): Checkout
  {
    var key := PlanKey(callbackData);
    if key !in plans then Checkout(InvalidPlan, None, payments)
    else if !InvoiceBuildable(userId, now) then Checkout(PaymentFailed, None, payments)
    else
      var request := InvoiceFor(plans, userId, key, now);
      var data := PaymentData(gateway);
      if data.None? || !Truthy(data.value) then Checkout(PaymentFailed, Some(request), payments)
      else if !Storable(data.value) || data.value.fields["payment_id"] in payments then Checkout(CheckoutRaised, Some(request), payments)
      else
        var fields := data.value.fields;
        Checkout(PayNow(fields["invoice_url"]), Some(request),
                 payments[fields["payment_id"] := NewPayment(userId, key, plans[key].price, now, fields["invoice_url"])])
  }

  // -----------------------------------------------------------------------
  // /status
  // -----------------------------------------------------------------------

  /** `(end - now).days`: whole days, rounded down (negative once the end has passed). */
  function DaysLeft(end: int, now: int): (days: int)
    ensures days * Day <= end - now < days * Day + Day
  {
    (end - now) / Day
  }

  /** What /status sends. */
  datatype StatusReply =
    | NoSubscription                                            // no record at all
    | ActiveReport(planName: string, expiresOn: int, daysLeft: int)
    | NoActiveSubscription
    | StatusRaised                                              // KeyError: end date or plan missing, or plan unknown

  /** status_command: an "active" status is reported as active whatever the end date says. */
  function StatusReport(users: map<UserId, User>, plans: map<string, Plan>, userId: UserId, now: int): StatusReply {
    if userId !in users then NoSubscription
    else
      var u := users[userId];
      if u.status != Some(StatusActive) then NoActiveSubscription
      else if u.subscriptionEnd.None? || u.subscriptionPlan.None? || u.subscriptionPlan.value !in plans then StatusRaised
      else
        var end := u.subscriptionEnd.value;
        ActiveReport(plans[u.subscriptionPlan.value].name, DayOf(end), DaysLeft(end, now))
  }

  // -----------------------------------------------------------------------
  // the bot
  // -----------------------------------------------------------------------

  class HackAcademyBot {
    const db: Database
    const plans: map<string, Plan>
    const channels: ChannelIds

    /** __init__: the plan table at the configured prices and the channel ids from the environment. */
    constructor (db: Database, prices: Prices, channels: ChannelIds)
      ensures this.db == db && this.plans == PlanTable(prices) && this.channels == channels
    {
      this.db := db;
      this.plans := PlanTable(prices);
      this.channels := channels;
    }

    method StartCommand(userId: UserId, username: Option<string>, now: int, replyOk: bool) returns (reply: StartReply)
      modifies db`users
      ensures StartOutcome(reply, db.users) == StartOutcomeOf(old(db.users), userId, username, now, replyOk)
    {
      if userId in db.users {
        var userData := db.users[userId];
        if userData.subscriptionEnd.Some? && userData.subscriptionEnd.value > now {
          return WelcomeBack(DayOf(userData.subscriptionEnd.value));
        }
      }
      reply := ChoosePlan;
      if !replyOk {
        return;
      }
      var current := if userId in db.users then db.users[userId] else EmptyUser;
      db.users := db.users[userId := Registered(current, username, now)];
    }

    /**
      create_nowpayments_payment: the invoice it requests, and the data it
      hands back; no request and no data when the order id cannot be built.
    */
    method CreatePayment(userId: UserId, plan: string, now: int, gateway: Option<HttpReply>)
      returns (request: Option<InvoiceRequest>, data: Option<Json>)
      requires plan in plans
      ensures request.Some? <==> InvoiceBuildable(userId, now)
      ensures request.Some? ==> request.value == InvoiceFor(plans, userId, plan, now)
      ensures request.Some? ==>
        && request.value.orderId == OrderId.Prefix + IntToString(userId) + "_" + plan + "_" + IntToString(now)
        && request.value.priceAmount == plans[plan].price && request.value.priceCurrency == "USD"
      ensures data == if request.Some? then PaymentData(gateway) else None
    {
      if !InvoiceBuildable(userId, now) {
        return None, None;
      }
      request := Some(InvoiceFor(plans, userId, plan, now));
      data := PaymentData(gateway);
    }

    method PlanCallback(userId: UserId, callbackData: string, gateway: Option<HttpReply>, now: int)
      returns (reply: CheckoutReply, request: Option<InvoiceRequest>)
      modifies db`payments
      ensures Checkout(reply, request, db.payments) == CheckoutOutcome(plans, old(db.payments), userId, callbackData, gateway, now)
    {
      var planKey := PlanKey(callbackData);
      if planKey !in plans {
        return InvalidPlan, None;
      }
      var paymentData;
      request, paymentData := CreatePayment(userId, planKey, now, gateway);
      if paymentData.None? || !Truthy(paymentData.value) {
        return PaymentFailed, request;
      }
      if !Storable(paymentData.value) {
        return CheckoutRaised, request;
      }
      var paymentId := paymentData.value.fields["payment_id"];
      var invoiceUrl := paymentData.value.fields["invoice_url"];
      if paymentId in db.payments {
        return CheckoutRaised, request;
      }
      db.payments := db.payments[paymentId := NewPayment(userId, planKey, plans[planKey].price, now, invoiceUrl)];
      reply := PayNow(invoiceUrl);
    }

    method HandleSuccessfulPayment(userId: UserId, plan: string, telegramOk: bool, now: int) returns (success: bool)
      modifies db`users
      ensures Activation(success, db.users) == ActivationOutcome(old(db.users), plans, channels, userId, plan, telegramOk, now)
    {
      success := AddedToChannel(plans, channels, plan, telegramOk);
      if success && userId in db.users {
        db.users := db.users[userId := Activated(db.users[userId], plan, now)];
      }
    }

    /** handle_subscription_expiry: the channel removal's outcome is ignored; the record is expired regardless. */
    method HandleSubscriptionExpiry(userId: UserId, plan: string, now: int)
      modifies db`users
      ensures db.users == Expire(old(db.users), userId, now)
    {
      if userId in db.users {
        db.users := db.users[userId := Expired(db.users[userId], now)];
      }
    }

    /** status_command: reads the record and builds the answer; writes nothing. */
    method StatusCommand(userId: UserId, now: int) returns (reply: StatusReply)
      ensures reply == StatusReport(db.users, plans, userId, now)
      ensures reply.ActiveReport? <==>
        (&& userId in db.users && db.users[userId].status == Some(StatusActive)
         && db.users[userId].subscriptionEnd.Some? && db.users[userId].subscriptionPlan.Some?
         && db.users[userId].subscriptionPlan.value in plans)
    {
      if userId !in db.users {
        return NoSubscription;
      }
      var userData := db.users[userId];
      if userData.status != Some(StatusActive) {
        return NoActiveSubscription;
      }
      if userData.subscriptionEnd.None? || userData.subscriptionPlan.None? || userData.subscriptionPlan.value !in plans {
        return StatusRaised;
      }
      var endDate := userData.subscriptionEnd.value;
      var daysLeft := DaysLeft(endDate, now);
      reply := ActiveReport(plans[userData.subscriptionPlan.value].name, DayOf(endDate), daysLeft);
    }
  }

  // -----------------------------------------------------------------------
  // properties
  // -----------------------------------------------------------------------

  /** The welcome back is sent exactly to subscribed users, and nothing is written for them. */
  lemma StartActiveCheck(users: map<UserId, User>, userId: UserId, username: Option<string>, now: int, replyOk: bool)
    ensures var o := StartOutcomeOf(users, userId, username, now, replyOk);
      && (o.reply.WelcomeBack? <==> HasActiveSubscription(users, userId, now))
      && (HasActiveSubscription(users, userId, now) ==> o.users == users)
      && (o.reply.WelcomeBack? ==> o.reply.expiresOn == DayOf(users[userId].subscriptionEnd.value))
  {
  }

  /**
    The upsert for a user who is not subscribed: the user is there
    afterwards, with the display name and both stamps set to now; the
    subscription fields and the expiry and revocation stamps are kept (all
    absent for a new user); no other record changes.
  */
  lemma StartRegisters(users: map<UserId, User>, userId: UserId, username: Option<string>, now: int)
    requires !HasActiveSubscription(users, userId, now)
    ensures var us := StartOutcomeOf(users, userId, username, now, true).users;
      && us.Keys == users.Keys + {userId}
      && (forall k :: k in users && k != userId ==> us[k] == users[k])
      && us[userId].username == Some(DisplayName(username))
      && us[userId].firstSeen == Some(now) && us[userId].lastInteraction == Some(now)
      && (userId in users ==>
            && us[userId].subscriptionPlan == users[userId].subscriptionPlan
            && us[userId].subscriptionStart == users[userId].subscriptionStart
            && us[userId].subscriptionEnd == users[userId].subscriptionEnd
            && us[userId].status == users[userId].status
            && us[userId] == users[userId].(username := Some(DisplayName(username)),
                                           firstSeen := Some(now), lastInteraction := Some(now)))
      && (userId !in users ==>
            && us[userId].subscriptionPlan.None? && us[userId].subscriptionEnd.None?
            && us[userId].status.None? && us[userId].expiredAt.None? && us[userId].revokedAt.None?)
  {
  }

  /** A failed menu send leaves the table as it was. */
  lemma StartReplyFailure(users: map<UserId, User>, userId: UserId, username: Option<string>, now: int)
    ensures StartOutcomeOf(users, userId, username, now, false).users == users
  {
  }

  /**
    As written, `first_seen` is overwritten on every /start by a user who is
    not subscribed: after two of them it holds the second time.
  */
  lemma FirstSeenOverwritten(users: map<UserId, User>, userId: UserId, username: Option<string>, t1: int, t2: int)
    requires !HasActiveSubscription(users, userId, t1)
    requires t1 <= t2
    ensures var us1 := StartOutcomeOf(users, userId, username, t1, true).users;
      var us2 := StartOutcomeOf(us1, userId, username, t2, true).users;
      us2[userId].firstSeen == Some(t2)
  {
    var us1 := StartOutcomeOf(users, userId, username, t1, true).users;
    assert !HasActiveSubscription(us1, userId, t2) by {
      assert us1[userId].subscriptionEnd == (if userId in users then users[userId].subscriptionEnd else None);
    }
  }

  /** Each button's data gives back its plan key. */
  lemma PlanKeyOfButton(key: string)
    requires '_' !in key
    ensures PlanKey(ButtonPrefix + key) == key
  {
    RemoveAllLeading(ButtonPrefix, key);
    RemoveAllAbsent(key, ButtonPrefix, '_');
  }

  /** The three buttons of the plan menu select the three plans. */
  lemma PlanButtons()
    ensures PlanKey("plan_beginner") == Beginner
    ensures PlanKey("plan_mid") == Mid
    ensures PlanKey("plan_complete") == Complete
  {
    assert PlanKey("plan_beginner") == Beginner by {
      assert "plan_beginner" == ButtonPrefix + Beginner;
      PlanKeyOfButton(Beginner);
    }
    assert PlanKey("plan_mid") == Mid by {
      assert "plan_mid" == ButtonPrefix + Mid;
      PlanKeyOfButton(Mid);
    }
    assert PlanKey("plan_complete") == Complete by {
      assert "plan_complete" == ButtonPrefix + Complete;
      PlanKeyOfButton(Complete);
    }
  }

  /** An unknown key is answered without a request and without a write. */
  lemma CheckoutRejectsUnknownKey(
    plans: map<string, Plan>, payments: map<PaymentId, Payment>,
    userId: UserId, callbackData: string, gateway: Option<HttpReply>, now: int)
    requires PlanKey(callbackData) !in plans
    ensures CheckoutOutcome(plans, payments, userId, callbackData, gateway, now) == Checkout(InvalidPlan, None, payments)
  {
  }

  /**
    A payment record is inserted iff the key names a plan, the order id
    can be built, and the gateway answered 200 with a storable body under
    a new payment id; the record
    then holds the plan key, the plan's price and status waiting, and
    nothing else changes. Otherwise the table is unchanged.
  */
  lemma CheckoutInsert(
    plans: map<string, Plan>, payments: map<PaymentId, Payment>,
    userId: UserId, callbackData: string, gateway: Option<HttpReply>, now: int)
    ensures var c := CheckoutOutcome(plans, payments, userId, callbackData, gateway, now);
      var key := PlanKey(callbackData);
      var data := PaymentData(gateway);
      && (c.payments != payments <==>
            && key in plans && InvoiceBuildable(userId, now)
            && data.Some? && Storable(data.value) && data.value.fields["payment_id"] !in payments)
      && (c.payments != payments ==>
            var id := data.value.fields["payment_id"];
            && c.payments == payments[id := c.payments[id]]
            && c.payments[id].userId == userId && c.payments[id].plan == key
            && c.payments[id].amount == Some(plans[key].price)
            && c.payments[id].status == JStr("waiting") && c.payments[id].createdAt == now
            && c.reply == PayNow(data.value.fields["invoice_url"]))
      && (gateway.None? || gateway.value.statusCode != 200 ==> c.payments == payments)
  {
    var c := CheckoutOutcome(plans, payments, userId, callbackData, gateway, now);
    var key := PlanKey(callbackData);
    var data := PaymentData(gateway);
    if key in plans && InvoiceBuildable(userId, now) && data.Some? && Storable(data.value) && data.value.fields["payment_id"] !in payments {
      var id := data.value.fields["payment_id"];
      assert Truthy(data.value) by {
        assert data.value.fields != map[] by {
          assert "payment_id" in data.value.fields;
        }
      }
      assert id !in payments && id in c.payments;
    }
  }

  /**
    The order id of every invoice the bot requests parses back, at the
    webhook, to the user and the plan key of the checkout.
  */
  lemma CheckoutOrderIdRoundTrip(
    prices: Prices, payments: map<PaymentId, Payment>,
    userId: UserId, callbackData: string, gateway: Option<HttpReply>, now: int)
    ensures var c := CheckoutOutcome(PlanTable(prices), payments, userId, callbackData, gateway, now);
      c.request.Some? ==> OrderId.Parse(c.request.value.orderId) == Success((userId, PlanKey(callbackData)))
  {
    var key := PlanKey(callbackData);
    if key in PlanTable(prices) && InvoiceBuildable(userId, now) {
      assert key in PlanKeys;
      OrderId.ParseBuild(userId, key, now);
    }
  }

  /**
    /status reports an active subscription only for status "active", also
    when the end date has passed (then with negative days left), and the
    days left are the whole days to the end, rounded down.
  */
  lemma StatusIgnoresEndDate(users: map<UserId, User>, plans: map<string, Plan>, userId: UserId, now: int)
    ensures var r := StatusReport(users, plans, userId, now);
      && (r.ActiveReport? ==> users[userId].status == Some(StatusActive))
      && (r.ActiveReport? ==>
            var end := users[userId].subscriptionEnd.value;
            && r.daysLeft * Day <= end - now < r.daysLeft * Day + Day
            && (end < now ==> r.daysLeft < 0)
            && r.planName == plans[users[userId].subscriptionPlan.value].name)
      && (userId in users && users[userId].status != Some(StatusActive) ==> r == NoActiveSubscription)
      && (userId !in users ==> r == NoSubscription)
  {
  }

  /**
    As written, /status raises for a record whose status is "active" but
    that holds no plan, which an admin extension of a user who never paid
    produces.
  */
  lemma StatusWithoutPlanRaises(users: map<UserId, User>, plans: map<string, Plan>, userId: UserId, now: int)
    requires userId in users && users[userId].status == Some(StatusActive) && users[userId].subscriptionPlan.None?
    ensures StatusReport(users, plans, userId, now) == StatusRaised
  {
  }
}
