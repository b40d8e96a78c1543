/**
  What every user record holds, whichever of the three processes wrote it
  last: records are created only by the /start upsert, so each has a
  username and both interaction stamps; an active record has an end date;
  an expired or revoked one has the time that happened. Every write of
  the bot, the webhook server and the admin tool keeps this.
*/
module Invariants {
  import opened Wrappers
  import opened Store
  import opened Plans
  import opened Subscription
  import opened TelegramBot
  import Webhook
  import BotManager
  import OrderId

  predicate WellFormed(u: User) {
    && u.username.Some? && u.firstSeen.Some? && u.lastInteraction.Some?
    && (u.status == Some(StatusActive) ==> u.subscriptionEnd.Some?)
    && (u.status == Some(StatusExpired) ==> u.expiredAt.Some?)
    && (u.status == Some(StatusRevoked) ==> u.revokedAt.Some?)
  }

  predicate Consistent(users: map<UserId, User>) {
    forall k :: k in users ==> WellFormed(users[k])
  }

  lemma StartKeeps(users: map<UserId, User>, userId: UserId, username: Option<string>, now: int, replyOk: bool)
    requires Consistent(users)
    ensures Consistent(StartOutcomeOf(users, userId, username, now, replyOk).users)
  {
    if !HasActiveSubscription(users, userId, now) && replyOk {
      var u := if userId in users then users[userId] else EmptyUser;
      assert WellFormed(Registered(u, username, now));
    }
  }

  lemma ActivationKeeps(
    users: map<UserId, User>, plans: map<string, Plan>, channels: ChannelIds,
    userId: UserId, plan: string, telegramOk: bool, now: int)
    requires Consistent(users)
    ensures Consistent(ActivationOutcome(users, plans, channels, userId, plan, telegramOk, now).users)
  {
  }

  lemma ExpireKeeps(users: map<UserId, User>, userId: UserId, now: int)
    requires Consistent(users)
    ensures Consistent(Expire(users, userId, now))
  {
  }

  lemma WebhookKeeps(
    hmacSha512: Webhook.HexDigest, ipnSecret: Option<string>, plans: map<string, Plan>, channels: ChannelIds,
    users: map<UserId, User>, payments: map<PaymentId, Payment>, req: Webhook.Request, telegramOk: bool, now: int)
    requires Consistent(users)
    ensures Consistent(Webhook.WebhookOutcome(hmacSha512, ipnSecret, plans, channels, users, payments, req, telegramOk, now).users)
  {
    var o := Webhook.WebhookOutcome(hmacSha512, ipnSecret, plans, channels, users, payments, req, telegramOk, now);
    if o.reply == Webhook.Accepted {
      var data := req.json.value.fields;
      var parsed := OrderId.Parse(Get(data, "order_id").s);
      ActivationKeeps(users, plans, channels, parsed.value.0, parsed.value.1, telegramOk, now);
    }
  }

  lemma ExtendKeeps(users: map<UserId, User>, userId: UserId, days: int, now: int)
    requires Consistent(users)
    ensures Consistent(BotManager.Extend(users, userId, days, now))
  {
  }

  lemma RevokeKeeps(users: map<UserId, User>, userId: UserId, now: int)
    requires Consistent(users)
    ensures Consistent(BotManager.Revoke(users, userId, now))
  {
  }

  lemma CleanupKeeps(users: map<UserId, User>, now: int)
    requires Consistent(users)
    ensures Consistent(BotManager.Cleanup(users, now))
  {
    var after := BotManager.Cleanup(users, now);
    forall k | k in after
      ensures WellFormed(after[k])
    {
      assert after[k] == if BotManager.DueForCleanup(users[k], now) then Expired(users[k], now) else users[k];
    }
  }

  /**
    In a consistent table, /status raises only for an active record whose
    plan is missing or not a known plan; a record that an activation wrote
    with a known plan is always reported.
  */
  lemma StatusRaisesOnlyOnPlan(users: map<UserId, User>, plans: map<string, Plan>, userId: UserId, now: int)
    requires Consistent(users)
    ensures StatusReport(users, plans, userId, now) == StatusRaised <==>
      (&& userId in users && users[userId].status == Some(StatusActive)
       && (users[userId].subscriptionPlan.None? || users[userId].subscriptionPlan.value !in plans))
  {
  }
}
