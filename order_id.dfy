/**
  The order id that links a checkout to its payment notification. The bot
  builds it as `hack_academy_{user_id}_{plan}_{timestamp}`; the webhook
  server splits it on `_` to recover the user id and the plan.
*/
module OrderId {
  import opened Wrappers
  import opened Text

  const Prefix := "hack_academy_"

  /** The order id create_nowpayments_payment sends to the gateway. */
  function Build(userId: int, plan: string, timestamp: int): string {
    Prefix + IntToString(userId) + "_" + plan + "_" + IntToString(timestamp)
  }

  /** The two ways payment_webhook rejects an order id, both answered with 400. */
  datatype ParseError =
    | BadFormat  // fewer than four parts, or not starting with `hack` and `academy`
    | BadUserId  // the third part is not an integer (ValueError)

  /**
    payment_webhook's parsing: split on `_`; there must be at least four
    parts, the first two `hack` and `academy`, the third an integer. The
    result is that integer and the fourth part; further parts are ignored.
  */
  function Parse(orderId: string): Result<(int, string), ParseError> {
    var parts := Split(orderId, '_');
    if |parts| >= 4 && parts[0] == "hack" && parts[1] == "academy" then
      match ParseInt(parts[2])
      case Some(userId) => Success((userId, parts[3]))
      case None => Failure(BadUserId)
    else Failure(BadFormat)
  }

  /** Whatever follows the plan part: nothing, or an underscore and the remaining parts. */
  predicate IsTail(tail: string) {
    tail == "" || tail[0] == '_'
  }

  /** The prefix, spelled out as two parts each followed by the separator. */
  lemma PrefixSpelled(d: string, p: string, tail: string)
    ensures Prefix + d + "_" + p + tail == "hack" + ['_'] + ("academy" + ['_'] + (d + ['_'] + (p + tail)))
  {
    assert Prefix == "hack" + ['_'] + "academy" + ['_'];
  }

  /** Splitting a separator-free part off the front of a string. */
  lemma SplitFront(a: string, rest: string)
    requires '_' !in a
    ensures Split(a + ['_'] + rest, '_') == [a] + Split(rest, '_')
  {
    SplitNoSeparator(a, '_');
    SplitConcat(a, '_', rest);
  }

  /** The parts of the plan and the tail: the plan, then whatever the tail splits into. */
  lemma SplitPlanTail(p: string, tail: string)
    requires '_' !in p && IsTail(tail)
    ensures |Split(p + tail, '_')| >= 1 && Split(p + tail, '_')[0] == p
  {
    if tail == "" {
      assert p + tail == p;
      SplitNoSeparator(p, '_');
    } else {
      var t := tail[1..];
      assert tail == ['_'] + t;
      assert p + tail == p + ['_'] + t;
      SplitFront(p, t);
      var r := Split(p + ['_'] + t, '_');
      assert r == [p] + Split(t, '_');
    }
  }

  /**
    Parsing an id of the shape `hack_academy_{d}_{p}{tail}`, where `d` and
    `p` hold no underscore: the user id is `int(d)` when that parses (else
    BadUserId) and the plan is `p`, whatever the tail holds.
  */
  lemma {:induction false} ParseShape(d: string, p: string, tail: string)
    requires '_' !in d && '_' !in p && IsTail(tail)
    ensures Parse(Prefix + d + "_" + p + tail) ==
      match ParseInt(d)
      case Some(userId) => Success((userId, p))
      case None => Failure(BadUserId)
  {
    var rest := Split(p + tail, '_');
    var s1 := d + ['_'] + (p + tail);
    var s2 := "academy" + ['_'] + s1;
    PrefixSpelled(d, p, tail);
    SplitPlanTail(p, tail);
    SplitFront(d, p + tail);
    SplitFront("academy", s1);
    SplitFront("hack", s2);
    assert Split(Prefix + d + "_" + p + tail, '_') == ["hack"] + (["academy"] + ([d] + rest));
  }

  /**
    Round trip: the webhook recovers the user id and plan of every order id
    the bot builds, for any user id that `str` can render and any plan key
    without an underscore (the three plan keys among them).
  */
  lemma ParseBuild(userId: int, plan: string, timestamp: int)
    requires StrFits(userId) && '_' !in plan
    ensures Parse(Build(userId, plan, timestamp)) == Success((userId, plan))
  {
    var d := IntToString(userId);
    var t := IntToString(timestamp);
    IntToStringHasNo(userId, '_');
    ParseShape(d, plan, "_" + t);
    assert Build(userId, plan, timestamp) == Prefix + d + "_" + plan + ("_" + t);
    ParseIntToString(userId);
  }

  lemma JoinFront(parts: seq<string>, sep: char)
    requires |parts| >= 2
    ensures Join(parts, sep) == parts[0] + [sep] + Join(parts[1..], sep)
  {
  }

  /** The converse: an accepted id has the shape ParseShape describes, with the recovered plan in the fourth place. */
  lemma {:induction false} ParseAccepted(orderId: string)
    requires Parse(orderId).Success?
    ensures var parts := Split(orderId, '_');
      && ParseInt(parts[2]) == Some(Parse(orderId).value.0)
      && parts[3] == Parse(orderId).value.1
      && orderId == Prefix + parts[2] + "_" + parts[3]
           + (if |parts| == 4 then "" else "_" + Join(parts[4..], '_'))
  {
    var parts := Split(orderId, '_');
    var tail := if |parts| == 4 then "" else "_" + Join(parts[4..], '_');
    JoinFront(parts, '_');
    assert parts[1..][0] == parts[1] && parts[1..][1..] == parts[2..];
    JoinFront(parts[1..], '_');
    assert parts[2..][0] == parts[2] && parts[2..][1..] == parts[3..];
    JoinFront(parts[2..], '_');
    if |parts| == 4 {
      assert parts[3..] == [parts[3]];
    } else {
      assert parts[3..][0] == parts[3] && parts[3..][1..] == parts[4..];
      JoinFront(parts[3..], '_');
    }
    assert Join(parts[3..], '_') == parts[3] + tail;
    assert orderId == "hack" + ['_'] + ("academy" + ['_'] + (parts[2] + ['_'] + (parts[3] + tail)));
    PrefixSpelled(parts[2], parts[3], tail);
  }
}
