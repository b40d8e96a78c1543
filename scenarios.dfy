/**
  Runs across the three processes: a checkout in the bot, the gateway's
  notification at the webhook server, and what /status, the bulk expiry
  and the statistics then see.
*/
module Scenarios {
  import opened Wrappers
  import opened Store
  import opened Plans
  import opened Subscription
  import opened TelegramBot
  import Webhook
  import BotManager
  import OrderId

  /** The fields of a gateway notification that the webhook reads. */
  function Notification(orderId: string, paymentId: Json, status: string): (data: map<string, Json>)
    ensures Get(data, "order_id") == JStr(orderId)
    ensures Get(data, "payment_id") == paymentId
    ensures Get(data, "payment_status") == JStr(status)
  {
    map["order_id" := JStr(orderId), "payment_id" := paymentId, "payment_status" := JStr(status)]
  }

  /** A gateway answer accepting an invoice request. */
  function InvoiceCreated(paymentId: Json, invoiceUrl: Json): Option<HttpReply> {
    Some(HttpReply(200, Some(JObj(map["payment_id" := paymentId, "invoice_url" := invoiceUrl]))))
  }

  /**
    A registered user presses a plan button; the gateway creates the
    invoice; later it reports the payment finished, with a valid
    signature, and the channel grant goes through. Then the payment is
    stored as waiting and overwritten as finished, the user holds that plan
    for 30 days from the notification, and /status reports 30 days left.
  */
  lemma {:induction false} CheckoutThenPaid(
    prices: Prices, channels: ChannelIds, hmacSha512: Webhook.HexDigest, secret: string, rawBody: string,
    users: map<UserId, User>, payments: map<PaymentId, Payment>,
    userId: UserId, plan: string, paymentId: Json, invoiceUrl: Json, t1: int, t2: int)
    requires plan in PlanKeys && plan in channels && ChannelIdSet(channels[plan])
    requires userId in users && paymentId !in payments && InvoiceBuildable(userId, t1)
    requires hmacSha512(secret, rawBody) != ""
    ensures
      var plans := PlanTable(prices);
      var c := CheckoutOutcome(plans, payments, userId, ButtonPrefix + plan, InvoiceCreated(paymentId, invoiceUrl), t1);
      && c.reply == PayNow(invoiceUrl)
      && c.payments[paymentId] == NewPayment(userId, plan, plans[plan].price, t1, invoiceUrl)
      && var data := Notification(c.request.value.orderId, paymentId, "finished");
         var o := Webhook.WebhookOutcome(hmacSha512, Some(secret), plans, channels, users, c.payments,
                    Webhook.Request(Some(hmacSha512(secret, rawBody)), rawBody, Some(JObj(data))), true, t2);
         && o.reply == Webhook.Accepted
         && o.payments[paymentId].status == JStr("finished")
         && o.payments[paymentId].amount == Some(plans[plan].price)
         && o.users == Activate(users, userId, plan, t2)
         && StatusReport(o.users, plans, userId, t2)
            == ActiveReport(plans[plan].name, DayOf(t2 + SubscriptionLength), SubscriptionDays)
  {
    var plans := PlanTable(prices);
    assert '_' !in plan;
    PlanKeyOfButton(plan);
    var gateway := InvoiceCreated(paymentId, invoiceUrl);
    assert Storable(PaymentData(gateway).value);
    assert Truthy(PaymentData(gateway).value) by {
      assert "payment_id" in PaymentData(gateway).value.fields;
    }
    var c := CheckoutOutcome(plans, payments, userId, ButtonPrefix + plan, gateway, t1);
    assert c.request == Some(InvoiceFor(plans, userId, plan, t1));
    OrderId.ParseBuild(userId, plan, t1);
    var data := Notification(c.request.value.orderId, paymentId, "finished");
    var signature := hmacSha512(secret, rawBody);
    Webhook.AcceptedEffect(hmacSha512, Some(secret), plans, channels, users, c.payments,
                           signature, rawBody, data, true, t2, userId, plan);
    assert AddedToChannel(plans, channels, plan, true);
    var us := Activate(users, userId, plan, t2);
    assert DaysLeft(t2 + SubscriptionLength, t2) == SubscriptionDays;
  }

  /**
    As written, an admin extension of a user who never paid makes the
    record active without a plan, and /status then raises.
  */
  lemma ExtendedUnpaidUserStatusRaises(
    users: map<UserId, User>, plans: map<string, Plan>, userId: UserId, username: Option<string>,
    days: int, t1: int, t2: int, t3: int)
    requires userId !in users
    ensures var registered := StartOutcomeOf(users, userId, username, t1, true).users;
      var extended := BotManager.Extend(registered, userId, days, t2);
      && extended[userId].status == Some(StatusActive)
      && StatusReport(extended, plans, userId, t3) == StatusRaised
  {
    var registered := StartOutcomeOf(users, userId, username, t1, true).users;
    assert registered[userId].subscriptionPlan.None?;
  }

  /**
    A subscription that lapsed without its scheduled expiry running is
    caught by the bulk expiry, after which /status no longer reports it and
    /start offers the plans again.
  */
  lemma LapsedSubscriptionCleanedUp(
    users: map<UserId, User>, plans: map<string, Plan>, userId: UserId, plan: string, t: int, now: int)
    requires userId in users && now > t + SubscriptionLength
    ensures var active := Activate(users, userId, plan, t);
      && userId in BotManager.DueSet(active, now)
      && BotManager.Cleanup(active, now)[userId].status == Some(StatusExpired)
      && StatusReport(BotManager.Cleanup(active, now), plans, userId, now) == NoActiveSubscription
      && !HasActiveSubscription(BotManager.Cleanup(active, now), userId, now)
  {
    var active := Activate(users, userId, plan, t);
    BotManager.CleanupModifiesDue(active, now);
  }

  /**
    A first paid notification for a waiting payment adds its amount to the
    revenue; a repeated one (the payment already counted) adds nothing.
  */
  lemma PaidNotificationRevenue(payments: map<PaymentId, Payment>, paymentId: PaymentId, status: Json, data: map<string, Json>, now: int)
    requires paymentId in payments && IsPaidStatus(status)
    ensures var after := Webhook.RecordNotification(payments, paymentId, status, data, now);
      var before := BotManager.SumAmounts(BotManager.SuccessfulPayments(payments));
      var total := BotManager.SumAmounts(BotManager.SuccessfulPayments(after));
      && (!IsPaidStatus(payments[paymentId].status) ==> total == before + BotManager.AmountOrZero(payments[paymentId]))
      && (IsPaidStatus(payments[paymentId].status) ==> total == before)
  {
    var p := payments[paymentId].(status := status, webhookData := Some(data), updatedAt := Some(now));
    var after := Webhook.RecordNotification(payments, paymentId, status, data, now);
    assert after == payments[paymentId := p];
    if !IsPaidStatus(payments[paymentId].status) {
      BotManager.RevenueAfterConfirmation(payments, paymentId, p);
    } else {
      BotManager.SumAmountsSameAmounts(BotManager.SuccessfulPayments(after), BotManager.SuccessfulPayments(payments));
    }
  }
}
