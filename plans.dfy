/**
  The plan table and channel table both the bot and the webhook server set
  up from the environment, and the rule deciding whether a user was added to
  a plan's channel.
*/
module Plans {
  import opened Wrappers

  /** A plan's display name, its price in cents and the key of its channel. */
  datatype Plan = Plan(name: string, price: int, channel: string)

  /** Prices in cents, from BEGINNER_PRICE, MID_PRICE and COMPLETE_PRICE. */
  datatype Prices = Prices(beginner: int, mid: int, complete: int)

  /** The prices used when the environment sets none: $17.99, $24.99 and $19.99. */
  const DefaultPrices := Prices(1799, 2499, 1999)

  const Beginner := "beginner"
  const Mid := "mid"
  const Complete := "complete"

  const PlanKeys: set<string> := {Beginner, Mid, Complete}

  /** The `plans` dictionary: three plans, each granting the channel of the same name. */
  function PlanTable(prices: Prices): (plans: map<string, Plan>)
    ensures plans.Keys == PlanKeys
    ensures forall k :: k in plans ==> plans[k].channel == k
    ensures plans[Beginner].price == prices.beginner
    ensures plans[Mid].price == prices.mid
    ensures plans[Complete].price == prices.complete
  {
    map[Beginner := Plan("Beginner to Mid", prices.beginner, Beginner),
        Mid := Plan("Mid to Pro", prices.mid, Mid),
        Complete := Plan("Complete Pack", prices.complete, Complete)]
  }

  /** The `channels` dictionary: channel key to the channel id read from the environment, if any. */
  type ChannelIds = map<string, Option<string>>

  function ChannelTable(beginner: Option<string>, mid: Option<string>, complete: Option<string>): (channels: ChannelIds)
    ensures channels.Keys == PlanKeys
    ensures channels[Beginner] == beginner && channels[Mid] == mid && channels[Complete] == complete
  {
    map[Beginner := beginner, Mid := mid, Complete := complete]
  }

  /** `if not channel_id`: an id counts only when present and non-empty. */
  predicate ChannelIdSet(id: Option<string>) {
    id.Some? && id.value != ""
  }

  /**
    What `add_user_to_channel(user_id, plan)` returns. Looking up an unknown
    plan or channel raises KeyError, which is caught and gives False; an unset
    channel id gives False; otherwise the result is whether the Telegram unban
    and the welcome message both went through (`telegramOk`).
  */
  predicate AddedToChannel(plans: map<string, Plan>, channels: ChannelIds, plan: string, telegramOk: bool) {
    && plan in plans
    && plans[plan].channel in channels
    && ChannelIdSet(channels[plans[plan].channel])
    && telegramOk
  }

  /** With the standard tables, a user is added iff the plan is one of the three, its channel id is set and Telegram succeeds. */
  lemma AddedToChannelStandard(prices: Prices, b: Option<string>, m: Option<string>, c: Option<string>, plan: string, telegramOk: bool)
    ensures AddedToChannel(PlanTable(prices), ChannelTable(b, m, c), plan, telegramOk)
        <==> plan in PlanKeys && telegramOk && ChannelIdSet(ChannelTable(b, m, c)[plan])
  {
  }
}
