/**
 * The wire surface of the examination-workflow session: the STOMP destinations the
 * client subscribes and publishes to, the keys under which it tracks its subscriptions,
 * and the JSON body of the take-next command (ECMAScript `JSON.stringify` of `{ queueId }`).
 */
module StompDestinations {
  import opened Wrappers

  // Private (per-user) subscription destinations.
  const ItemDetails := "/user/queue/exam-workflow/item/details"
  const QuerySizeReply := "/user/queue/query-size-reply"
  const ErrorQueue := "/user/queue/errors"

  // Public per-queue broadcast destination: BroadcastPrefix + queueId + BroadcastSuffix.
  const BroadcastPrefix := "/topic/exam-workflow/queue/"
  const BroadcastSuffix := "/list"

  // Command destinations.
  const TakeNext := "/app/exam-workflow/queue/take-next"
  const InProcess := "/app/exam-workflow/item/in-process"
  const QueueSizeQuery := "/app/exam-workflow/query/queue-size"

  /** The fixed queue id of the billing desk. */
  const ReceptionQueue := "reception"

  // Keys of the subscription map.
  const ItemsKey := "queueItems"
  const SizeKey := "queueSize"
  const ErrorsKey := "errors"
  const BroadcastKeyPrefix := "queueBroadcast-"

  /** `s` with `prefix` and `suffix` removed, when it has both. */
  function StripAffixes(s: string, prefix: string, suffix: string): Option<string> {
    if |prefix| + |suffix| <= |s| && s[..|prefix|] == prefix && s[|s| - |suffix|..] == suffix
    then Some(s[|prefix|..|s| - |suffix|])
    else None
  }

  lemma StripAffixesOf(prefix: string, middle: string, suffix: string)
    ensures StripAffixes(prefix + middle + suffix, prefix, suffix) == Some(middle)
  {
    var s := prefix + middle + suffix;
    assert s[..|prefix|] == prefix;
    assert s[|s| - |suffix|..] == suffix;
    assert s[|prefix|..|s| - |suffix|] == middle;
  }

  /** The broadcast topic of queue `queueId`. */
  function Broadcast(queueId: string): string {
    BroadcastPrefix + queueId + BroadcastSuffix
  }

  /** The queue a destination is the broadcast topic of, if any. */
  function BroadcastQueueId(destination: string): Option<string> {
    StripAffixes(destination, BroadcastPrefix, BroadcastSuffix)
  }

  lemma BroadcastRoundTrip(queueId: string)
    ensures BroadcastQueueId(Broadcast(queueId)) == Some(queueId)
  {
    StripAffixesOf(BroadcastPrefix, queueId, BroadcastSuffix);
  }

  /** Two queues never share a broadcast topic. */
  lemma BroadcastInjective(q1: string, q2: string)
    ensures Broadcast(q1) == Broadcast(q2) <==> q1 == q2
  {
    BroadcastRoundTrip(q1);
    BroadcastRoundTrip(q2);
  }

  /** No private or command destination is the broadcast topic of any queue. */
  lemma FixedDestinationsAreNotBroadcasts(queueId: string)
    ensures Broadcast(queueId) !in {ItemDetails, QuerySizeReply, ErrorQueue, TakeNext, InProcess, QueueSizeQuery}
  {
    var b := Broadcast(queueId);
    assert b[1] == 't';
    assert ItemDetails[1] == 'u' && QuerySizeReply[1] == 'u' && ErrorQueue[1] == 'u';
    assert TakeNext[1] == 'a' && InProcess[1] == 'a' && QueueSizeQuery[1] == 'a';
  }

  /** The map key of the broadcast subscription of queue `queueId`. */
  function BroadcastKey(queueId: string): string {
    BroadcastKeyPrefix + queueId
  }

  /** Broadcast keys are distinct per queue and never collide with the three fixed keys. */
  lemma BroadcastKeysDistinct(q1: string, q2: string)
    ensures BroadcastKey(q1) == BroadcastKey(q2) <==> q1 == q2
    ensures BroadcastKey(q1) !in {ItemsKey, SizeKey, ErrorsKey}
  {
    StripAffixesOf(BroadcastKeyPrefix, q1, "");
    StripAffixesOf(BroadcastKeyPrefix, q2, "");
    assert BroadcastKey(q1) + "" == BroadcastKey(q1);
    assert BroadcastKey(q2) + "" == BroadcastKey(q2);
    var k := BroadcastKey(q1);
    assert k[5] == 'B';
    assert ItemsKey[5] == 'I' && SizeKey[5] == 'S' && ErrorsKey[0] == 'e' && k[0] == 'q';
  }

  // ---------------------------------------------------------------------------------
  // JSON string quoting, as ECMAScript's JSON.stringify does it for string values.

  const HexDigits := "0123456789abcdef"

  /** The letter of the two-character escape of `c`, for the characters that have one. */
  function ShortEscape(c: char): Option<char> {
    var n := c as int;
    if c == '"' then Some('"')
    else if c == '\\' then Some('\\')
    else if n == 8 then Some('b')
    else if n == 9 then Some('t')
    else if n == 10 then Some('n')
    else if n == 12 then Some('f')
    else if n == 13 then Some('r')
    else None
  }

  /** The character a two-character escape `\e` denotes. */
  function ShortUnescape(e: char): Option<char> {
    if e == '"' then Some('"')
    else if e == '\\' then Some('\\')
    else if e == '/' then Some('/')
    else if e == 'b' then Some(8 as char)
    else if e == 't' then Some(9 as char)
    else if e == 'n' then Some(10 as char)
    else if e == 'f' then Some(12 as char)
    else if e == 'r' then Some(13 as char)
    else None
  }

  /** The JSON escape of one character. */
  function EscapeChar(c: char): (r: string)
    ensures 1 <= |r| <= 6
    ensures |r| == 1 <==> (c != '"' && c != '\\' && c as int >= 32)
  {
    var n := c as int;
    match ShortEscape(c)
    case Some(e) => ['\\', e]
    case None =>
      if n < 32 then ['\\', 'u', '0', '0', HexDigits[n / 16], HexDigits[n % 16]]
      else [c]
  }

  /** The JSON escape of a string (without the surrounding quotes). */
  function Escape(s: string): string {
    if s == [] then [] else EscapeChar(s[0]) + Escape(s[1..])
  }

  function HexValue(c: char): Option<nat> {
    if '0' <= c <= '9' then Some(c as int - '0' as int)
    else if 'a' <= c <= 'f' then Some(c as int - 'a' as int + 10)
    else if 'A' <= c <= 'F' then Some(c as int - 'A' as int + 10)
    else None
  }

  /** The value of four hexadecimal digits. */
  function Hex4(s: string): (r: Option<nat>)
    requires |s| == 4
    ensures r.Some? ==> r.value < 0x1_0000
  {
    match (HexValue(s[0]), HexValue(s[1]), HexValue(s[2]), HexValue(s[3]))
    case (Some(a), Some(b), Some(c), Some(d)) =>
      if a < 16 && b < 16 && c < 16 && d < 16 then Some(((a * 16 + b) * 16 + c) * 16 + d) else None
    case _ => None
  }

  function Prepend(c: char, rest: Option<string>): Option<string> {
    match rest
    case Some(r) => Some([c] + r)
    case None => None
  }

  /** The character a `\uXXXX` escape at the head of `s` denotes. */
  function UnicodeUnescape(s: string): Option<char>
    requires |s| >= 6
  {
    match Hex4(s[2..6])
    case Some(v) => if v < 0xD800 || 0xE000 <= v then Some(v as char) else None
    case None => None
  }

  /** The characters a JSON string body (the text between the quotes) denotes, if it is well formed. */
  function Unescape(s: string): Option<string>
    decreases |s|
  {
    if s == [] then Some([])
    else if s[0] == '"' || s[0] as int < 32 then None
    else if s[0] != '\\' then Prepend(s[0], Unescape(s[1..]))
    else if |s| < 2 then None
    else if s[1] == 'u' then
      if |s| < 6 then None
      else match UnicodeUnescape(s)
        case Some(c) => Prepend(c, Unescape(s[6..]))
        case None => None
    else match ShortUnescape(s[1])
      case Some(c) => Prepend(c, Unescape(s[2..]))
      case None => None
  }

  lemma ShortEscapeRoundTrip(c: char)
    requires ShortEscape(c).Some?
    ensures ShortEscape(c).value != 'u' && ShortUnescape(ShortEscape(c).value) == Some(c)
  {
    var n := c as int;
    assert n == 8 ==> 8 as char == c;
    assert n == 9 ==> 9 as char == c;
    assert n == 10 ==> 10 as char == c;
    assert n == 12 ==> 12 as char == c;
    assert n == 13 ==> 13 as char == c;
  }

  lemma UnicodeEscapeRoundTrip(c: char, rest: string)
    requires ShortEscape(c).None? && c as int < 32
    ensures |EscapeChar(c) + rest| >= 6
    ensures UnicodeUnescape(EscapeChar(c) + rest) == Some(c)
    ensures (EscapeChar(c) + rest)[6..] == rest
  {
    var n := c as int;
    var s := EscapeChar(c) + rest;
    assert s[2..6] == ['0', '0', HexDigits[n / 16], HexDigits[n % 16]];
    assert HexValue(HexDigits[n / 16]) == Some(n / 16);
    assert HexValue(HexDigits[n % 16]) == Some(n % 16);
    assert Hex4(s[2..6]) == Some(n);
  }

  lemma UnescapeEscapeChar(c: char, rest: string)
    ensures Unescape(EscapeChar(c) + rest) == Prepend(c, Unescape(rest))
  {
    var s := EscapeChar(c) + rest;
    if ShortEscape(c).Some? {
      ShortEscapeRoundTrip(c);
      assert s[1] == ShortEscape(c).value;
      assert s[2..] == rest;
    } else if c as int < 32 {
      UnicodeEscapeRoundTrip(c, rest);
    } else {
      assert s[1..] == rest;
    }
  }

  /** Escaping loses nothing: the escaped text denotes exactly the original string. */
  lemma {:induction false} UnescapeEscape(s: string)
    ensures Unescape(Escape(s)) == Some(s)
  {
    if s != [] {
      UnescapeEscape(s[1..]);
      UnescapeEscapeChar(s[0], Escape(s[1..]));
      assert [s[0]] + s[1..] == s;
    }
  }

  const TakeNextBodyPrefix := "{\"queueId\":\""
  const TakeNextBodySuffix := "\"}"

  /** `JSON.stringify({ queueId })`. */
  function TakeNextBody(queueId: string): string {
    TakeNextBodyPrefix + Escape(queueId) + TakeNextBodySuffix
  }

  /** The queue id a take-next body carries, as a JSON reader sees it. */
  function TakeNextQueueId(body: string): Option<string> {
    match StripAffixes(body, TakeNextBodyPrefix, TakeNextBodySuffix)
    case Some(inner) => Unescape(inner)
    case None => None
  }

  /** The take-next body carries exactly the queue id it was built from. */
  lemma TakeNextBodyRoundTrip(queueId: string)
    ensures TakeNextQueueId(TakeNextBody(queueId)) == Some(queueId)
  {
    StripAffixesOf(TakeNextBodyPrefix, Escape(queueId), TakeNextBodySuffix);
    UnescapeEscape(queueId);
  }
}
