/**
 * `NotificationClient`: data-only push messages to one device or to many.
 * Each call the messaging service would receive is appended to `sent`; the
 * source logs and swallows every send failure, so an attempt has no outcome
 * here and neither method can fail.
 */
module Messaging {
  import opened Text

  /** The values that reach `stringifyData`. */
  datatype Scalar = Str(s: string) | Bool(b: bool) | Null | Undefined

  /** `String(value)`. */
  function JsString(v: Scalar): (r: string)
    ensures v.Str? ==> r == v.s
  {
    match v
    case Str(s) => s
    case Bool(b) => if b then "true" else "false"
    case Null => "null"
    case Undefined => "undefined"
  }

  const TimestampKey := "timestamp"

  /**
   * What `stringifyData(data)` returns: every entry converted with `String`,
   * then `timestamp` set to `now`, the ISO time `new Date().toISOString()`
   * would give.
   */
  function Stringified(data: map<string, Scalar>, now: string): (r: map<string, string>)
    ensures r.Keys == data.Keys + {TimestampKey}
  {
    (map k | k in data :: JsString(data[k]))[TimestampKey := now]
  }

  /** Every entry but `timestamp` keeps its converted value; `timestamp` is always `now`, even if the input had one. */
  lemma StringifiedValues(data: map<string, Scalar>, now: string)
    ensures Stringified(data, now)[TimestampKey] == now
    ensures forall k :: k in data && k != TimestampKey ==> Stringified(data, now)[k] == JsString(data[k])
  {
  }

  /** `stringifyData`: a loop over the entries of `data` that fills `result`, then the timestamp. */
  method StringifyData(data: map<string, Scalar>, now: string) returns (result: map<string, string>)
    ensures result == Stringified(data, now)
  {
    result := map[];
    var pending := data.Keys;
    while pending != {}
      invariant pending <= data.Keys
      invariant result == map k | k in data.Keys - pending :: JsString(data[k])
      decreases pending
    {
      var key :| key in pending;
      result := result[key := JsString(data[key])];
      pending := pending - {key};
    }
    assert data.Keys - pending == data.Keys;
    result := result[TimestampKey := now];
  }

  /** `{ title, body, ...stringifyData(data) }`: the spread comes last, so its keys win. */
  function MessageData(title: string, body: string, data: map<string, Scalar>, now: string): (r: map<string, string>)
    ensures r.Keys == {"title", "body"} + data.Keys + {TimestampKey}
  {
    map["title" := title, "body" := body] + Stringified(data, now)
  }

  /** A `title` or `body` entry in `data` overrides the argument of that name. */
  lemma MessageDataOverrides(title: string, body: string, data: map<string, Scalar>, now: string)
    ensures MessageData(title, body, data, now)["title"] == if "title" in data then JsString(data["title"]) else title
    ensures MessageData(title, body, data, now)["body"] == if "body" in data then JsString(data["body"]) else body
    ensures MessageData(title, body, data, now)[TimestampKey] == now
  {
  }

  /** The guard of `sendToDevice`: a non-empty token of untrimmed length at least 20. */
  predicate DeviceTokenAccepted(token: string) {
    token != "" && |token| >= 20
  }

  /** The filter of `sendToMultipleDevices`: trimmed length at least 20. */
  predicate MulticastTokenAccepted(token: string) {
    |Trim(token)| >= 20
  }

  /** `deviceTokens.filter(MulticastTokenAccepted)`. */
  function ValidTokens(tokens: seq<string>): (r: seq<string>)
    ensures |r| <= |tokens|
  {
    if |tokens| == 0 then []
    else ValidTokens(tokens[..|tokens| - 1]) + (if MulticastTokenAccepted(tokens[|tokens| - 1]) then [tokens[|tokens| - 1]] else [])
  }

  /** The filter keeps each accepted token as often as it occurs and drops every other one. */
  lemma {:induction false} ValidTokensCounts(tokens: seq<string>, t: string)
    ensures multiset(ValidTokens(tokens))[t] == if MulticastTokenAccepted(t) then multiset(tokens)[t] else 0
  {
    if |tokens| > 0 {
      var init, last := tokens[..|tokens| - 1], tokens[|tokens| - 1];
      ValidTokensCounts(init, t);
      assert tokens == init + [last];
      assert multiset(tokens) == multiset(init) + multiset{last};
      var kept := if MulticastTokenAccepted(last) then [last] else [];
      assert ValidTokens(tokens) == ValidTokens(init) + kept;
      assert multiset(ValidTokens(tokens)) == multiset(ValidTokens(init)) + multiset(kept);
    }
  }

  /** A token survives the filter iff it is in the input and accepted. */
  lemma ValidTokensMembers(tokens: seq<string>, t: string)
    ensures t in ValidTokens(tokens) <==> t in tokens && MulticastTokenAccepted(t)
  {
    ValidTokensCounts(tokens, t);
  }

  /** The filter keeps input order: it distributes over concatenation. */
  lemma {:induction false} ValidTokensAppend(a: seq<string>, b: seq<string>)
    ensures ValidTokens(a + b) == ValidTokens(a) + ValidTokens(b)
    decreases |b|
  {
    if |b| == 0 {
      assert a + b == a;
    } else {
      var init, last := b[..|b| - 1], b[|b| - 1];
      assert (a + b)[..|a + b| - 1] == a + init;
      assert (a + b)[|a + b| - 1] == last;
      ValidTokensAppend(a, init);
      var kept := if MulticastTokenAccepted(last) then [last] else [];
      assert ValidTokens(a + b) == ValidTokens(a + init) + kept;
      assert ValidTokens(b) == ValidTokens(init) + kept;
    }
  }

  /** Every token the multicast filter accepts passes the single-device guard. */
  lemma MulticastAcceptedIsDeviceAccepted(token: string)
    requires MulticastTokenAccepted(token)
    ensures DeviceTokenAccepted(token)
  {
  }

  /** The converse fails: trailing white space counts for one guard and not the other. */
  lemma DeviceAcceptedNotMulticast()
    ensures var token := "abcdefghijklmnopqrs ";
      DeviceTokenAccepted(token) && !MulticastTokenAccepted(token)
  {
    var token := "abcdefghijklmnopqrs ";
    var core := token[..|token| - 1];
    assert !IsJsSpace(token[0]) && IsJsSpace(token[|token| - 1]) && !IsJsSpace(core[|core| - 1]);
    assert TrimStart(token) == token;
    assert TrimEnd(token) == TrimEnd(core) == core;
    assert |Trim(token)| == 19;
  }

  /** A call the messaging service receives: `send` to one token, or `sendEachForMulticast` to several. */
  datatype PushMessage =
    | ToDevice(token: string, data: map<string, string>)
    | ToDevices(tokens: seq<string>, data: map<string, string>)

  /** The multicast `sendToMultipleDevices` makes, if any: none when no token survives the filter. */
  function MulticastAttempt(tokens: seq<string>, title: string, body: string, data: map<string, Scalar>, now: string): (r: seq<PushMessage>)
    ensures |r| <= 1
    ensures |r| == 1 <==> exists t :: t in tokens && MulticastTokenAccepted(t)
  {
    var valid := ValidTokens(tokens);
    assert forall t :: t in valid <==> t in tokens && MulticastTokenAccepted(t) by {
      forall t ensures t in valid <==> t in tokens && MulticastTokenAccepted(t) {
        ValidTokensMembers(tokens, t);
      }
    }
    if |valid| == 0 then []
    else
      assert valid[0] in valid;
      [ToDevices(valid, MessageData(title, body, data, now))]
  }

  /** The multicast, when made, goes to the accepted tokens of the list, with the message data of its arguments. */
  lemma MulticastAttemptShape(tokens: seq<string>, title: string, body: string, data: map<string, Scalar>, now: string, m: PushMessage)
    requires m in MulticastAttempt(tokens, title, body, data, now)
    ensures m == ToDevices(ValidTokens(tokens), MessageData(title, body, data, now))
    ensures forall t :: t in m.tokens ==> t in tokens && MulticastTokenAccepted(t)
  {
    forall t | t in m.tokens
      ensures t in tokens && MulticastTokenAccepted(t)
    {
      ValidTokensMembers(tokens, t);
    }
  }

  class NotificationClient {
    var sent: seq<PushMessage>

    constructor ()
      ensures sent == []
    {
      sent := [];
    }

    /** `sendToDevice`: skips a rejected token, otherwise sends one data-only message. */
    method SendToDevice(deviceToken: string, title: string, body: string, data: map<string, Scalar>, now: string)
      modifies this
      ensures sent == old(sent) + if DeviceTokenAccepted(deviceToken)
        then [ToDevice(deviceToken, MessageData(title, body, data, now))] else []
    {
      if deviceToken == "" || |deviceToken| < 20 {
        return;
      }
      var stringified := StringifyData(data, now);
      var messageData := map["title" := title, "body" := body] + stringified;
      sent := sent + [ToDevice(deviceToken, messageData)];
    }

    /** `sendToMultipleDevices`: filters the tokens and sends one multicast unless none remain. */
    method SendToMultipleDevices(deviceTokens: seq<string>, title: string, body: string, data: map<string, Scalar>, now: string)
      modifies this
      ensures sent == old(sent) + MulticastAttempt(deviceTokens, title, body, data, now)
    {
      var validTokens := ValidTokens(deviceTokens);
      if |validTokens| == 0 {
        return;
      }
      var stringified := StringifyData(data, now);
      var messageData := map["title" := title, "body" := body] + stringified;
      sent := sent + [ToDevices(validTokens, messageData)];
    }
  }
}
