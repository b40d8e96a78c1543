/**
  The admin tool `BotManager`: statistics, the user listing, extending and
  revoking a subscription, the bulk expiry of overdue subscriptions, and
  the command-line checks in front of them.
*/
module BotManager {
  import opened Wrappers
  import opened Store
  import opened Subscription

  // -----------------------------------------------------------------------
  // get_stats
  // -----------------------------------------------------------------------

  /** `count_documents({'status': status})`: the users holding that status. */
  function UsersWithStatus(users: map<UserId, User>, status: string): (ids: set<UserId>)
    ensures ids <= users.Keys
    ensures forall k :: k in ids <==> k in users && users[k].status == Some(status)
  {
    set k | k in users && users[k].status == Some(status)
  }

  /** The documents `find({'status': {'$in': ['finished', 'confirmed']}})` returns. */
  function SuccessfulPayments(payments: map<PaymentId, Payment>): (paid: map<PaymentId, Payment>)
    ensures paid.Keys <= payments.Keys
    ensures forall k :: k in paid <==> k in payments && IsPaidStatus(payments[k].status)
    ensures forall k :: k in paid ==> paid[k] == payments[k]
  {
    map k | k in payments && IsPaidStatus(payments[k].status) :: payments[k]
  }

  /** `doc.get('amount', 0)`. */
  function AmountOrZero(p: Payment): int {
    if p.amount.Some? then p.amount.value else 0
  }

  /** The total of the amounts of some payments, a missing amount counting as 0. */
  ghost function SumAmounts(ps: map<PaymentId, Payment>): int
    decreases |ps|
  {
    if ps == map[] then 0
    else
      var k :| k in ps;
      AmountOrZero(ps[k]) + SumAmounts(ps - {k})
  }

  /** Removing one payment from a map of payments shrinks it by exactly one. */
  lemma RemoveOne(ps: map<PaymentId, Payment>, k: PaymentId)
    requires k in ps
    ensures (ps - {k}).Keys == ps.Keys - {k}
    ensures |ps - {k}| == |ps| - 1
  {
    assert (ps - {k}).Keys == ps.Keys - {k};
    assert |ps.Keys - {k}| == |ps.Keys| - 1;
  }

  /** The sum does not depend on the order the payments are taken in: any one can be taken first. */
  lemma {:induction false} SumAmountsRemove(ps: map<PaymentId, Payment>, k: PaymentId)
    requires k in ps
    ensures SumAmounts(ps) == AmountOrZero(ps[k]) + SumAmounts(ps - {k})
    decreases |ps|
  {
    var j :| j in ps && SumAmounts(ps) == AmountOrZero(ps[j]) + SumAmounts(ps - {j});
    if j != k {
      var rest := ps - {j} - {k};
      RemoveOne(ps, j);
      RemoveOne(ps, k);
      assert ps - {j} - {k} == ps - {k} - {j};
      SumAmountsRemove(ps - {j}, k);
      SumAmountsRemove(ps - {k}, j);
    }
  }

  /** The figures get_stats prints. */
  datatype Stats = Stats(
    totalUsers: nat, activeSubscriptions: nat, expiredSubscriptions: nat,
    totalPayments: nat, successfulPayments: nat, totalRevenue: int)

  /** `map` restricted to the keys in `keys`. */
  function Restrict(m: map<PaymentId, Payment>, keys: set<PaymentId>): map<PaymentId, Payment> {
    map k | k in m && k in keys :: m[k]
  }

  /** Active and expired users are separate groups of users; successful payments are some of the payments. */
  lemma StatsBounds(users: map<UserId, User>, payments: map<PaymentId, Payment>)
    ensures |UsersWithStatus(users, StatusActive)| + |UsersWithStatus(users, StatusExpired)| <= |users|
    ensures |SuccessfulPayments(payments)| <= |payments|
  {
    var active, expired := UsersWithStatus(users, StatusActive), UsersWithStatus(users, StatusExpired);
    assert active !! expired;
    assert |active + expired| == |active| + |expired|;
    SubsetSize(active + expired, users.Keys);
    SubsetSize(SuccessfulPayments(payments).Keys, payments.Keys);
  }

  lemma {:induction false} SubsetSize<T>(a: set<T>, b: set<T>)
    requires a <= b
    ensures |a| <= |b|
    decreases |b|
  {
    if b != {} {
      var x :| x in b;
      SubsetSize(a - {x}, b - {x});
    }
  }

  /** Revenue is a sum of amounts: with no negative amount it is never negative. */
  lemma {:induction false} RevenueNonNegative(ps: map<PaymentId, Payment>)
    requires forall k :: k in ps ==> AmountOrZero(ps[k]) >= 0
    ensures SumAmounts(ps) >= 0
    decreases |ps|
  {
    if ps != map[] {
      var k :| k in ps;
      SumAmountsRemove(ps, k);
      RemoveOne(ps, k);
      RevenueNonNegative(ps - {k});
    }
  }

  /** The sum reads nothing but the amounts. */
  lemma {:induction false} SumAmountsSameAmounts(a: map<PaymentId, Payment>, b: map<PaymentId, Payment>)
    requires a.Keys == b.Keys
    requires forall k :: k in a ==> AmountOrZero(a[k]) == AmountOrZero(b[k])
    ensures SumAmounts(a) == SumAmounts(b)
    decreases |a|
  {
    if a != map[] {
      var k :| k in a;
      SumAmountsRemove(a, k);
      SumAmountsRemove(b, k);
      RemoveOne(a, k);
      SumAmountsSameAmounts(a - {k}, b - {k});
    } else {
      assert b == map[];
    }
  }

  /**
    Confirming a payment that was not yet counted adds exactly its amount
    to the revenue.
  */
  lemma RevenueAfterConfirmation(payments: map<PaymentId, Payment>, id: PaymentId, p: Payment)
    requires id in payments && !IsPaidStatus(payments[id].status) && IsPaidStatus(p.status)
    ensures SumAmounts(SuccessfulPayments(payments[id := p]))
         == SumAmounts(SuccessfulPayments(payments)) + AmountOrZero(p)
  {
    var before, after := SuccessfulPayments(payments), SuccessfulPayments(payments[id := p]);
    assert id in after && after[id] == p;
    SumAmountsRemove(after, id);
    assert after - {id} == before;
  }

  // -----------------------------------------------------------------------
  // list_users
  // -----------------------------------------------------------------------

  /** Whether a user is listed: every user without a filter, else those with the given status. */
  predicate Listed(u: User, status: Option<string>) {
    status.None? || status.value == "" || u.status == status
  }

  function ListedUsers(users: map<UserId, User>, status: Option<string>): set<UserId> {
    set k | k in users && Listed(users[k], status)
  }

  /** The order of `sort('last_interaction', -1)`: later first, a missing stamp after every present one. */
  predicate NotEarlier(a: Option<int>, b: Option<int>) {
    b.None? || (a.Some? && a.value >= b.value)
  }

  function GetOr(v: Option<string>, default: string): string {
    if v.Some? then v.value else default
  }

  /** The "Expires" column: the end date's calendar day, or N/A. */
  datatype Expires = NotAvailable | On(day: int)

  /** One printed line of the listing. */
  datatype Row = Row(userId: UserId, username: string, status: string, plan: string, expires: Expires)

  function RowOf(userId: UserId, u: User): Row {
    Row(userId, GetOr(u.username, "Unknown"), GetOr(u.status, "unknown"), GetOr(u.subscriptionPlan, "None"),
        if u.subscriptionEnd.Some? then On(DayOf(u.subscriptionEnd.value)) else NotAvailable)
  }

  function Ids(rows: seq<Row>): set<UserId> {
    set r | r in rows :: r.userId
  }

  /** Some element of a non-empty set. */
  lemma Pick<T>(s: set<T>) returns (x: T)
    requires s != {}
    ensures x in s
  {
    x :| x in s;
  }

  /** Some user of `s` whose last interaction is not earlier than that of anyone in `s`. */
  lemma {:induction false} Latest(users: map<UserId, User>, s: set<UserId>) returns (k: UserId)
    requires s != {} && s <= users.Keys
    ensures k in s && forall j :: j in s ==> NotEarlier(users[k].lastInteraction, users[j].lastInteraction)
    decreases |s|
  {
    var x := Pick(s);
    if s == {x} {
      k := x;
    } else {
      var y := Latest(users, s - {x});
      k := if NotEarlier(users[y].lastInteraction, users[x].lastInteraction) then y else x;
    }
  }

  /** The rows so far are in order. */
  predicate InOrder(users: map<UserId, User>, rows: seq<Row>)
    requires forall i :: 0 <= i < |rows| ==> rows[i].userId in users
  {
    forall i, j :: 0 <= i < j < |rows| ==>
      NotEarlier(users[rows[i].userId].lastInteraction, users[rows[j].userId].lastInteraction)
  }

  /** Every row so far comes before every user still to be listed. */
  predicate Ahead(users: map<UserId, User>, rows: seq<Row>, remaining: set<UserId>)
    requires forall i :: 0 <= i < |rows| ==> rows[i].userId in users
    requires remaining <= users.Keys
  {
    forall i, k :: 0 <= i < |rows| && k in remaining ==>
      NotEarlier(users[rows[i].userId].lastInteraction, users[k].lastInteraction)
  }

  /** Each row shows its user's record. */
  predicate RowsShow(users: map<UserId, User>, rows: seq<Row>) {
    forall i :: 0 <= i < |rows| ==> rows[i].userId in users && rows[i] == RowOf(rows[i].userId, users[rows[i].userId])
  }

  /** Appending a latest remaining user keeps the rows in order and ahead of the rest. */
  lemma ListStep(users: map<UserId, User>, rows: seq<Row>, remaining: set<UserId>, k: UserId)
    requires RowsShow(users, rows) && remaining <= users.Keys
    requires InOrder(users, rows) && Ahead(users, rows, remaining)
    requires k in remaining && forall j :: j in remaining ==> NotEarlier(users[k].lastInteraction, users[j].lastInteraction)
    ensures RowsShow(users, rows + [RowOf(k, users[k])])
    ensures InOrder(users, rows + [RowOf(k, users[k])])
    ensures Ahead(users, rows + [RowOf(k, users[k])], remaining - {k})
    ensures Ids(rows + [RowOf(k, users[k])]) == Ids(rows) + {k}
  {
    var rows' := rows + [RowOf(k, users[k])];
    assert forall i :: 0 <= i < |rows| ==> rows'[i] == rows[i];
    assert rows'[|rows|].userId == k;
    assert forall r :: r in rows' <==> r in rows || r == RowOf(k, users[k]);
  }

  // -----------------------------------------------------------------------
  // extend_subscription, revoke_access, cleanup_expired
  // -----------------------------------------------------------------------

  /** The extension's `$set`: the stored end (or now, when none is stored) plus the days, and status active. */
  function Extended(u: User, days: int, now: int): User {
    var base := if u.subscriptionEnd.Some? then u.subscriptionEnd.value else now;
    u.(subscriptionEnd := Some(base + days * Day), status := Some(StatusActive))
  }

  function Extend(users: map<UserId, User>, userId: UserId, days: int, now: int): map<UserId, User> {
    if userId in users then users[userId := Extended(users[userId], days, now)] else users
  }

  /** The revocation's `$set`: status revoked and the time. */
  function Revoked(u: User, now: int): User {
    u.(status := Some(StatusRevoked), revokedAt := Some(now))
  }

  function Revoke(users: map<UserId, User>, userId: UserId, now: int): map<UserId, User> {
    if userId in users then users[userId := Revoked(users[userId], now)] else users
  }

  /** The filter of cleanup_expired: an end date before now and status active. */
  predicate DueForCleanup(u: User, now: int) {
    u.subscriptionEnd.Some? && u.subscriptionEnd.value < now && u.status == Some(StatusActive)
  }

  function DueSet(users: map<UserId, User>, now: int): set<UserId> {
    set k | k in users && DueForCleanup(users[k], now)
  }

  /** `update_many`: every due user is expired at once. */
  function Cleanup(users: map<UserId, User>, now: int): map<UserId, User> {
    map k | k in users :: if DueForCleanup(users[k], now) then Expired(users[k], now) else users[k]
  }

  /** The records an update modified: present before and after, with a different value. */
  function Modified(before: map<UserId, User>, after: map<UserId, User>): set<UserId> {
    set k | k in before && k in after && before[k] != after[k]
  }

  // -----------------------------------------------------------------------
  // the manager
  // -----------------------------------------------------------------------

  class BotManager {
    const db: Database

    constructor (db: Database)
      ensures this.db == db
    {
      this.db := db;
    }

    /** get_stats: five counts and the revenue summed over the successful payments' documents. */
    method GetStats() returns (stats: Stats)
      ensures stats.totalUsers == |db.users|
      ensures stats.activeSubscriptions == |UsersWithStatus(db.users, StatusActive)|
      ensures stats.expiredSubscriptions == |UsersWithStatus(db.users, StatusExpired)|
      ensures stats.totalPayments == |db.payments|
      ensures stats.successfulPayments == |SuccessfulPayments(db.payments)|
      ensures stats.totalRevenue == SumAmounts(SuccessfulPayments(db.payments))
    {
      var docs := SuccessfulPayments(db.payments);
      var remaining := docs.Keys;
      var totalRevenue := 0;
      assert Restrict(docs, remaining) == docs;
      while remaining != {}
        invariant remaining <= docs.Keys
        invariant totalRevenue + SumAmounts(Restrict(docs, remaining)) == SumAmounts(docs)
        decreases |remaining|
      {
        var k :| k in remaining;
        SumAmountsRemove(Restrict(docs, remaining), k);
        assert Restrict(docs, remaining) - {k} == Restrict(docs, remaining - {k});
        totalRevenue := totalRevenue + AmountOrZero(docs[k]);
        remaining := remaining - {k};
      }
      assert Restrict(docs, remaining) == map[];
      stats := Stats(|db.users|, |UsersWithStatus(db.users, StatusActive)|, |UsersWithStatus(db.users, StatusExpired)|,
                     |db.payments|, |docs|, totalRevenue);
    }

    /**
      list_users: the listed users, one row each, latest interaction first.
      The database sorts; here the next row is always a latest remaining
      user.
    */
    method ListUsers(status: Option<string>) returns (rows: seq<Row>)
      ensures Ids(rows) == ListedUsers(db.users, status)
      ensures |rows| == |ListedUsers(db.users, status)|
      ensures forall i :: 0 <= i < |rows| ==> rows[i].userId in db.users && rows[i] == RowOf(rows[i].userId, db.users[rows[i].userId])
      ensures forall i, j :: 0 <= i < j < |rows| ==>
        NotEarlier(db.users[rows[i].userId].lastInteraction, db.users[rows[j].userId].lastInteraction)
    {
      var users := db.users;
      var remaining := ListedUsers(users, status);
      ghost var listed := remaining;
      rows := [];
      while remaining != {}
        invariant remaining <= listed && listed <= users.Keys
        invariant Ids(rows) + remaining == listed && Ids(rows) !! remaining
        invariant |rows| + |remaining| == |listed|
        invariant RowsShow(users, rows)
        invariant InOrder(users, rows) && Ahead(users, rows, remaining)
        decreases |remaining|
      {
        ghost var latest := Latest(users, remaining);
        var k :| k in remaining && forall j :: j in remaining ==> NotEarlier(users[k].lastInteraction, users[j].lastInteraction);
        ListStep(users, rows, remaining, k);
        rows := rows + [RowOf(k, users[k])];
        remaining := remaining - {k};
      }
    }

    /** extend_subscription: a missing user is reported and nothing is written. */
    method ExtendSubscription(userId: UserId, days: int, now: int) returns (found: bool)
      modifies db`users
      ensures found == (userId in old(db.users))
      ensures db.users == Extend(old(db.users), userId, days, now)
    {
      if userId !in db.users {
        return false;
      }
      var user := db.users[userId];
      var newEnd;
      if user.subscriptionEnd.Some? {
        newEnd := user.subscriptionEnd.value + days * Day;
      } else {
        newEnd := now + days * Day;
      }
      db.users := db.users[userId := user.(subscriptionEnd := Some(newEnd), status := Some(StatusActive))];
      found := true;
    }

    /** revoke_access: "revoked" is reported iff the update modified the record. */
    method RevokeAccess(userId: UserId, now: int) returns (revoked: bool)
      modifies db`users
      ensures db.users == Revoke(old(db.users), userId, now)
      ensures revoked == (userId in Modified(old(db.users), db.users))
    {
      if userId in db.users {
        var before := db.users[userId];
        db.users := db.users[userId := Revoked(before, now)];
        revoked := Revoked(before, now) != before;
      } else {
        revoked := false;
      }
    }

    /** cleanup_expired: the count reported is the number of records modified. */
    method CleanupExpired(now: int) returns (modifiedCount: nat)
      modifies db`users
      ensures db.users == Cleanup(old(db.users), now)
      ensures modifiedCount == |Modified(old(db.users), db.users)|
    {
      CleanupModifiesDue(db.users, now);
      modifiedCount := |DueSet(db.users, now)|;
      db.users := Cleanup(db.users, now);
    }
  }

  // -----------------------------------------------------------------------
  // properties of the admin operations
  // -----------------------------------------------------------------------

  /**
    An extension writes only the named user's end date and status: the end
    moves by the days from the stored end, even a past one, or from now when
    none is stored. A missing user is not created.
  */
  lemma ExtendEffect(users: map<UserId, User>, userId: UserId, days: int, now: int)
    ensures var us := Extend(users, userId, days, now);
      && us.Keys == users.Keys
      && (forall k :: k in users && k != userId ==> us[k] == users[k])
      && (userId in users ==>
            && us[userId].subscriptionEnd ==
                 Some((if users[userId].subscriptionEnd.Some? then users[userId].subscriptionEnd.value else now) + days * Day)
            && us[userId].status == Some(StatusActive)
            && us[userId] == users[userId].(subscriptionEnd := us[userId].subscriptionEnd, status := us[userId].status))
  {
  }

  /** Extensions stack: extending by `a` and then by `b` days is extending by `a + b` days. */
  lemma ExtendStacks(users: map<UserId, User>, userId: UserId, a: int, b: int, t1: int, t2: int)
    ensures Extend(Extend(users, userId, a, t1), userId, b, t2) == Extend(users, userId, a + b, t1)
  {
    if userId in users {
      var u := users[userId];
      var base := if u.subscriptionEnd.Some? then u.subscriptionEnd.value else t1;
      assert base + a * Day + b * Day == base + (a + b) * Day;
    }
  }

  /**
    A revocation writes only the named user's status and revocation time; a
    missing user is not created, and is the only case reported as not found,
    apart from a record already revoked at this very time.
  */
  lemma RevokeEffect(users: map<UserId, User>, userId: UserId, now: int)
    ensures var us := Revoke(users, userId, now);
      && us.Keys == users.Keys
      && (forall k :: k in users && k != userId ==> us[k] == users[k])
      && (userId in users ==>
            && us[userId].status == Some(StatusRevoked) && us[userId].revokedAt == Some(now)
            && us[userId] == users[userId].(status := us[userId].status, revokedAt := us[userId].revokedAt))
      && (userId !in Modified(users, us) <==>
            userId !in users || (users[userId].status == Some(StatusRevoked) && users[userId].revokedAt == Some(now)))
  {
  }

  /**
    The bulk expiry modifies exactly the due users, expiring each; everyone
    else is untouched.
  */
  lemma CleanupModifiesDue(users: map<UserId, User>, now: int)
    ensures Cleanup(users, now).Keys == users.Keys
    ensures Modified(users, Cleanup(users, now)) == DueSet(users, now)
    ensures forall k :: k in users ==>
      Cleanup(users, now)[k] == if DueForCleanup(users[k], now) then Expired(users[k], now) else users[k]
  {
    var after := Cleanup(users, now);
    forall k | k in DueSet(users, now)
      ensures k in Modified(users, after)
    {
      assert after[k].status != users[k].status;
    }
  }

  /** Running the bulk expiry again at the same time finds nothing due and modifies nothing. */
  lemma CleanupIdempotent(users: map<UserId, User>, now: int)
    ensures DueSet(Cleanup(users, now), now) == {}
    ensures Cleanup(Cleanup(users, now), now) == Cleanup(users, now)
    ensures Modified(Cleanup(users, now), Cleanup(Cleanup(users, now), now)) == {}
  {
    var once := Cleanup(users, now);
    assert forall k :: k in once ==> !DueForCleanup(once[k], now);
  }

  // -----------------------------------------------------------------------
  // the command line
  // -----------------------------------------------------------------------

  /** The parsed arguments; argparse has already enforced the command and status choices and the integer types. */
  datatype CliArgs = CliArgs(
    command: string, userId: Option<int>, days: Option<int>, status: Option<string>, filename: Option<string>)

  datatype Command =
    | ShowStats
    | ListUsersCommand(status: Option<string>)
    | ExtendCommand(userId: UserId, days: int)
    | RevokeCommand(userId: UserId)
    | CleanupCommand
    | BackupCommand(filename: Option<string>)

  /** argparse's exit with status 2 for a command or status outside the choices; the tool's own exit with status 1. */
  datatype CliError = UsageError | MissingArgument

  const CommandChoices: set<string> := {"stats", "users", "extend", "revoke", "cleanup", "backup"}
  const StatusChoices: set<string> := {StatusActive, StatusExpired, StatusRevoked}

  /** `not args.x` for an optional integer: absent or zero. */
  predicate Falsy(v: Option<int>) {
    v.None? || v.value == 0
  }

  /** main: the checks between parsing the arguments and calling the manager. */
  function ParseCommand(args: CliArgs): Result<Command, CliError> {
    if args.command !in CommandChoices || (args.status.Some? && args.status.value !in StatusChoices) then Failure(UsageError)
    else if args.command == "stats" then Success(ShowStats)
    else if args.command == "users" then Success(ListUsersCommand(args.status))
    else if args.command == "extend" then
      if Falsy(args.userId) || Falsy(args.days) then Failure(MissingArgument)
      else Success(ExtendCommand(args.userId.value, args.days.value))
    else if args.command == "revoke" then
      if Falsy(args.userId) then Failure(MissingArgument)
      else Success(RevokeCommand(args.userId.value))
    else if args.command == "cleanup" then Success(CleanupCommand)
    else Success(BackupCommand(args.filename))
  }

  /**
    `extend` runs iff both a user id and a day count are given and nonzero,
    `revoke` iff a nonzero user id is given; the other commands need
    nothing but a valid status filter.
  */
  lemma CommandChecks(args: CliArgs)
    requires args.command in CommandChoices && (args.status.Some? ==> args.status.value in StatusChoices)
    ensures args.command == "extend" ==>
      (ParseCommand(args).Success? <==> !Falsy(args.userId) && !Falsy(args.days))
      && (ParseCommand(args).Success? ==> ParseCommand(args).value == ExtendCommand(args.userId.value, args.days.value))
    ensures args.command == "revoke" ==>
      (ParseCommand(args).Success? <==> !Falsy(args.userId))
      && (ParseCommand(args).Success? ==> ParseCommand(args).value == RevokeCommand(args.userId.value))
    ensures args.command !in {"extend", "revoke"} ==> ParseCommand(args).Success?
    ensures ParseCommand(args).Failure? ==> ParseCommand(args).error == MissingArgument
  {
  }
}
