/**
  The two writes that start and end a subscription, shared by the bot and
  the webhook server: activation after a successful payment and expiry.
  Both are `update_one` calls without upsert on the `users` collection.
*/
module Subscription {
  import opened Wrappers
  import opened Store
  import opened Plans

  /** The profile fields no subscription write touches. */
  predicate SameProfile(u: User, v: User) {
    && u.username == v.username
    && u.firstSeen == v.firstSeen
    && u.lastInteraction == v.lastInteraction
  }

  /** The `$set` of a successful payment: plan, start now, end 30 days from now, status active. */
  function Activated(u: User, plan: string, now: int): User {
    u.(subscriptionPlan := Some(plan),
       subscriptionStart := Some(now),
       subscriptionEnd := Some(now + SubscriptionLength),
       status := Some(StatusActive))
  }

  /** `update_one({'user_id': userId}, {'$set': ...})`: an absent user is not created. */
  function Activate(users: map<UserId, User>, userId: UserId, plan: string, now: int): map<UserId, User> {
    if userId in users then users[userId := Activated(users[userId], plan, now)] else users
  }

  /** What handle_successful_payment returns and the users table it leaves. */
  datatype Activation = Activation(success: bool, users: map<UserId, User>)

  /**
    handle_successful_payment: the users table changes only when the channel
    grant succeeded, and then the result is True even if no user matched.
  */
  function ActivationOutcome(
    users: map<UserId, User>, plans: map<string, Plan>, channels: ChannelIds,
    userId: UserId, plan: string, telegramOk: bool, now: int): Activation
  {
    if AddedToChannel(plans, channels, plan, telegramOk) then Activation(true, Activate(users, userId, plan, now))
    else Activation(false, users)
  }

  /** The `$set` of an expiry: status expired and the time it happened. */
  function Expired(u: User, now: int): User {
    u.(status := Some(StatusExpired), expiredAt := Some(now))
  }

  /** handle_subscription_expiry's `update_one`: plan and end date are kept. */
  function Expire(users: map<UserId, User>, userId: UserId, now: int): map<UserId, User> {
    if userId in users then users[userId := Expired(users[userId], now)] else users
  }

  /**
    Activation touches only the named user, keeps the key set (no upsert) and
    sets exactly plan, start, end = now + 30 days and status, keeping the
    profile and the expiry and revocation stamps.
  */
  lemma ActivateEffect(users: map<UserId, User>, userId: UserId, plan: string, now: int)
    ensures Activate(users, userId, plan, now).Keys == users.Keys
    ensures forall k :: k in users && k != userId ==> Activate(users, userId, plan, now)[k] == users[k]
    ensures userId in users ==>
      var u, v := users[userId], Activate(users, userId, plan, now)[userId];
      && v.subscriptionPlan == Some(plan)
      && v.subscriptionStart == Some(now)
      && v.subscriptionEnd == Some(now + SubscriptionLength)
      && v.status == Some(StatusActive)
      && SameProfile(u, v) && v.expiredAt == u.expiredAt && v.revokedAt == u.revokedAt
  {
  }

  /**
    A later activation erases an earlier one completely: the end date is
    reset to the new now + 30 days instead of being added to.
  */
  lemma ActivateResets(users: map<UserId, User>, userId: UserId, plan1: string, t1: int, plan2: string, t2: int)
    ensures Activate(Activate(users, userId, plan1, t1), userId, plan2, t2) == Activate(users, userId, plan2, t2)
  {
  }

  /** A failed channel grant leaves the users table as it was and reports False. */
  lemma ActivationNeedsGrant(
    users: map<UserId, User>, plans: map<string, Plan>, channels: ChannelIds,
    userId: UserId, plan: string, telegramOk: bool, now: int)
    ensures var a := ActivationOutcome(users, plans, channels, userId, plan, telegramOk, now);
      && a.success == AddedToChannel(plans, channels, plan, telegramOk)
      && (!a.success ==> a.users == users)
      && (a.success ==> a.users == Activate(users, userId, plan, now))
  {
  }

  /** Expiry keeps everything but status and expiry time, including plan and end date. */
  lemma ExpireEffect(users: map<UserId, User>, userId: UserId, now: int)
    ensures Expire(users, userId, now).Keys == users.Keys
    ensures forall k :: k in users && k != userId ==> Expire(users, userId, now)[k] == users[k]
    ensures userId in users ==>
      var u, v := users[userId], Expire(users, userId, now)[userId];
      && v.status == Some(StatusExpired) && v.expiredAt == Some(now)
      && v.subscriptionPlan == u.subscriptionPlan && v.subscriptionEnd == u.subscriptionEnd
      && v.subscriptionStart == u.subscriptionStart && SameProfile(u, v) && v.revokedAt == u.revokedAt
  {
  }
}
