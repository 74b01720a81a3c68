/** The library's pure helpers: phone-number validation, the classifier that
    turns a thrown error into a uniform failed result, and the normalisation
    of an inbound webhook payload. */
module Utils {
  import opened Results
  import opened JsValue
  import opened Types

  // ---------------------------------------------------------------------------
  // Phone numbers
  // ---------------------------------------------------------------------------

  const InvalidPhoneMessage := "Invalid phone number format. Must be 10-15 digits with country code."

  /** `\d` in a regular expression without the `u` flag: an ASCII digit. */
  predicate IsDigit(c: char) {
    '0' <= c <= '9'
  }

  predicate AllDigits(s: string) {
    forall i :: 0 <= i < |s| ==> IsDigit(s[i])
  }

  /** How many characters of `s` are digits. */
  function DigitCount(s: string): nat
    decreases |s|
  {
    if |s| == 0 then 0 else (if IsDigit(s[0]) then 1 else 0) + DigitCount(s[1..])
  }

  /** `s.replace(/\D/g, '')`: every non-digit character removed. */
  function StripNonDigits(s: string): string
    decreases |s|
  {
    if |s| == 0 then ""
    else (if IsDigit(s[0]) then [s[0]] else "") + StripNonDigits(s[1..])
  }

  /** `/^\d{10,15}$/`: ten to fifteen digits and nothing else. */
  predicate MatchesPhonePattern(t: string) {
    AllDigits(t) && 10 <= |t| <= 15
  }

  /** Strips the separators from a phone number and accepts the result when
      it is 10 to 15 digits long; otherwise fails with the fixed message. */
  function ValidatePhoneNumber(phone: string): (r: Result<string, string>)
    ensures r.Success? <==> 10 <= DigitCount(phone) <= 15
    ensures r.Success? ==> r.value == StripNonDigits(phone) && AllDigits(r.value) && 10 <= |r.value| <= 15
    ensures r.Failure? ==> r.error == InvalidPhoneMessage
  {
    var cleaned := StripNonDigits(phone);
    StripLeavesTheDigits(phone);
    StripFixesExactlyDigitStrings(cleaned);
    if !MatchesPhonePattern(cleaned) then Failure(InvalidPhoneMessage) else Success(cleaned)
  }

  /** What is left is digits only, as many as the input holds. */
  lemma {:induction false} StripLeavesTheDigits(s: string)
    ensures AllDigits(StripNonDigits(s))
    ensures |StripNonDigits(s)| == DigitCount(s)
    decreases |s|
  {
    if |s| > 0 {
      StripLeavesTheDigits(s[1..]);
    }
  }

  /** A string of digits only is left as it is, and only such a string is. */
  lemma {:induction false} StripFixesExactlyDigitStrings(s: string)
    ensures StripNonDigits(s) == s <==> AllDigits(s)
    decreases |s|
  {
    StripLeavesTheDigits(s);
    if |s| > 0 && AllDigits(s) {
      assert AllDigits(s[1..]) by {
        forall k | 0 <= k < |s| - 1 ensures IsDigit(s[1..][k]) { assert s[1..][k] == s[k + 1]; }
      }
      StripFixesExactlyDigitStrings(s[1..]);
      assert s == [s[0]] + s[1..];
    }
  }

  /** Stripping distributes over concatenation. */
  lemma {:induction false} StripAppend(a: string, b: string)
    ensures StripNonDigits(a + b) == StripNonDigits(a) + StripNonDigits(b)
    decreases |a|
  {
    if |a| == 0 {
      assert a + b == b;
    } else {
      var kept := if IsDigit(a[0]) then [a[0]] else "";
      assert (a + b)[0] == a[0];
      assert (a + b)[1..] == a[1..] + b;
      assert StripNonDigits(a + b) == kept + StripNonDigits(a[1..] + b);
      assert StripNonDigits(a) == kept + StripNonDigits(a[1..]);
      StripAppend(a[1..], b);
      assert kept + (StripNonDigits(a[1..]) + StripNonDigits(b)) == (kept + StripNonDigits(a[1..])) + StripNonDigits(b);
    }
  }

  /** Stripping removes exactly the non-digits and keeps every digit in its
      place: the character at position `i` survives, between what survives of
      the text before it and of the text after it, exactly when it is a digit. */
  lemma {:induction false} StripKeepsDigitsInOrder(s: string, i: nat)
    requires i < |s|
    ensures IsDigit(s[i]) ==> StripNonDigits(s) == StripNonDigits(s[..i]) + [s[i]] + StripNonDigits(s[i + 1..])
    ensures !IsDigit(s[i]) ==> StripNonDigits(s) == StripNonDigits(s[..i]) + StripNonDigits(s[i + 1..])
  {
    var before, c, after := s[..i], s[i], s[i + 1..];
    StripAroundOne(before, c, after);
    assert before + [c] + after == s;
    var kept: string := if IsDigit(c) then [c] else [];
    assert StripNonDigits(before) + kept + StripNonDigits(after)
      == if IsDigit(c) then StripNonDigits(before) + [c] + StripNonDigits(after)
         else StripNonDigits(before) + StripNonDigits(after);
  }

  /** One character between two texts is kept, in its place, exactly when
      it is a digit. */
  lemma {:induction false} StripAroundOne(before: string, c: char, after: string)
    ensures StripNonDigits(before + [c] + after)
      == StripNonDigits(before) + (if IsDigit(c) then [c] else []) + StripNonDigits(after)
  {
    var kept: string := if IsDigit(c) then [c] else [];
    assert before + [c] + after == before + ([c] + after);
    StripAppend(before, [c] + after);
    StripAppend([c], after);
    StripOne(c);
    assert StripNonDigits(before) + (kept + StripNonDigits(after)) == StripNonDigits(before) + kept + StripNonDigits(after);
  }

  /** A single character is kept exactly when it is a digit. */
  lemma StripOne(c: char)
    ensures StripNonDigits([c]) == if IsDigit(c) then [c] else []
  {
    assert [c][1..] == [];
  }

  /** Validating an already validated number returns it unchanged. */
  lemma {:induction false} ValidateIsIdempotent(phone: string)
    requires ValidatePhoneNumber(phone).Success?
    ensures ValidatePhoneNumber(ValidatePhoneNumber(phone).value) == ValidatePhoneNumber(phone)
  {
    var cleaned := ValidatePhoneNumber(phone).value;
    StripFixesExactlyDigitStrings(cleaned);
    StripLeavesTheDigits(cleaned);
  }

  /** Separators never change the outcome: removing one non-digit character
      anywhere in the input gives the same result, so `"+62 812-3456-789"`
      validates exactly as `"628123456789"` does. */
  lemma {:induction false} SeparatorsAreIgnored(before: string, c: char, after: string)
    requires !IsDigit(c)
    ensures ValidatePhoneNumber(before + [c] + after) == ValidatePhoneNumber(before + after)
  {
    var s := before + [c] + after;
    assert s[..|before|] == before && s[|before| + 1..] == after;
    StripKeepsDigitsInOrder(s, |before|);
    StripAppend(before, after);
    StripLeavesTheDigits(s);
    StripLeavesTheDigits(before + after);
  }

  /** A three-digit number is refused. */
  lemma {:induction false} ValidateRefusesShortNumber()
    ensures ValidatePhoneNumber("123") == Failure(InvalidPhoneMessage)
  {
    StripLeavesTheDigits("123");
  }

  // ---------------------------------------------------------------------------
  // Error classification
  // ---------------------------------------------------------------------------

  /** The failure taxonomy: the server answered with a non-2xx status; a
      request went out but nothing came back; or building or sending the
      request failed (a validation error included). */
  datatype ErrorKind = ServerError | NoResponse | SetupError

  function KindOf(e: Thrown): ErrorKind {
    if e.response.Some? then ServerError
    else if IsTruthy(e.request) then NoResponse
    else SetupError
  }

  /** Turns any thrown error into a failed result. */
  function FormatError(e: Thrown): (r: FonnteResponse)
    ensures r.Failed? && r.Status() == Bool(false)
    ensures IsTruthy(r.message)
    ensures KindOf(e) == ServerError ==>
      && r.statusCode == e.response.value.status
      && (IsTruthy(Get(e.response.value.data, "message")) ==> r.message == Get(e.response.value.data, "message"))
      && (!IsTruthy(Get(e.response.value.data, "message")) ==> r.message == Str("API error"))
      && r.error == Payload(if IsTruthy(e.response.value.data) then e.response.value.data else Str(e.response.value.statusText))
    ensures KindOf(e) == NoResponse ==>
      r.statusCode == 0 && r.message == Str("No response from server") && r.error == Payload(e.request)
    ensures KindOf(e) == SetupError ==>
      && r.statusCode == 0
      && (IsTruthy(e.message) ==> r.message == e.message)
      && (!IsTruthy(e.message) ==> r.message == Str("Unknown error"))
      && r.error == Cause(e)
  {
    match e.response
    case Some(resp) =>
      Failed(Or(Get(resp.data, "message"), Str("API error")), Payload(Or(resp.data, Str(resp.statusText))), resp.status)
    case None =>
      if IsTruthy(e.request) then Failed(Str("No response from server"), Payload(e.request), 0)
      else Failed(Or(e.message, Str("Unknown error")), Cause(e), 0)
  }

  /** A status code other than 0 can only come from a server answer, and
      only a server answer can carry one. */
  lemma StatusCodeComesFromServer(e: Thrown)
    ensures FormatError(e).statusCode != 0 ==> KindOf(e) == ServerError
    ensures KindOf(e) != ServerError ==> FormatError(e).statusCode == 0
  {
  }

  /** A validation error is reported with its own text and status code 0. */
  lemma ValidationErrorIsReportedVerbatim(text: string)
    requires text != ""
    ensures FormatError(ErrorWithMessage(text)) == Failed(Str(text), Cause(ErrorWithMessage(text)), 0)
  {
  }

  // ---------------------------------------------------------------------------
  // Inbound payload normalisation
  // ---------------------------------------------------------------------------

  /** The accepted key names of each normalised field, in priority order. */
  const DeviceIdKeys: seq<string> := ["device_id", "deviceId"]
  const SenderKeys: seq<string> := ["sender", "from", "phone"]
  const MessageKeys: seq<string> := ["message", "text", "body"]
  const IdKeys: seq<string> := ["id", "message_id"]
  const IsGroupKeys: seq<string> := ["is_group", "isGroup"]
  const GroupIdKeys: seq<string> := ["group_id", "groupId"]
  const GroupNameKeys: seq<string> := ["group_name", "groupName"]
  const ButtonIdKeys: seq<string> := ["button_id", "buttonId", "button"]
  const ListIdKeys: seq<string> := ["list_id", "listId", "list"]
  const UrlKeys: seq<string> := ["url", "media_url", "mediaUrl"]
  const FilenameKeys: seq<string> := ["filename", "file_name"]

  /** The payload's values under `keys`, in order. */
  function Candidates(data: Value, keys: seq<string>): seq<Value> {
    seq(|keys|, i requires 0 <= i < |keys| => Get(data, keys[i]))
  }

  /** `data[k0] || data[k1] || …`: the first truthy value among the keys. */
  function Resolve(data: Value, keys: seq<string>): Value
    requires |keys| > 0
  {
    FirstTruthy(Candidates(data, keys))
  }

  /** Normalises an inbound payload. Each field is the first truthy value
      among its accepted keys (the value under the last key when none is
      truthy); `type`, `is_group` and `timestamp` fall back to `"text"`,
      `false` and the receipt time `now`; the payload itself is kept as `raw`.
      Reading a property of `null` or `undefined` throws, and then only
      `raw` is returned. */
  function ParseWebhookData(data: Value, now: int): (m: WebhookMessage)
    ensures m.raw == data
    ensures m.RawOnly? <==> IsNullish(data)
    ensures m.Message? ==>
      && SelectsFirstTruthy(m.deviceId, Candidates(data, DeviceIdKeys))
      && SelectsFirstTruthy(m.sender, Candidates(data, SenderKeys))
      && SelectsFirstTruthy(m.message, Candidates(data, MessageKeys))
      && SelectsFirstTruthy(m.id, Candidates(data, IdKeys))
      && SelectsFirstTruthy(m.groupId, Candidates(data, GroupIdKeys))
      && SelectsFirstTruthy(m.groupName, Candidates(data, GroupNameKeys))
      && SelectsFirstTruthy(m.buttonId, Candidates(data, ButtonIdKeys))
      && SelectsFirstTruthy(m.listId, Candidates(data, ListIdKeys))
      && SelectsFirstTruthy(m.url, Candidates(data, UrlKeys))
      && SelectsFirstTruthy(m.filename, Candidates(data, FilenameKeys))
      && m.caption == Get(data, "caption")
    ensures m.Message? ==>
      && IsTruthy(m.messageType)
      && (IsTruthy(Get(data, "type")) ==> m.messageType == Get(data, "type"))
      && (!IsTruthy(Get(data, "type")) ==> m.messageType == Str("text"))
    ensures m.Message? ==>
      && (IsTruthy(m.isGroup) <==> IsTruthy(Get(data, "is_group")) || IsTruthy(Get(data, "isGroup")))
      && (!IsTruthy(m.isGroup) ==> m.isGroup == Bool(false))
      && (IsTruthy(m.isGroup) ==> SelectsFirstTruthy(m.isGroup, Candidates(data, IsGroupKeys)))
    ensures m.Message? ==>
      && (IsTruthy(Get(data, "timestamp")) ==> m.timestamp == Get(data, "timestamp"))
      && (!IsTruthy(Get(data, "timestamp")) ==> m.timestamp == Num(now))
  {
    if IsNullish(data) then RawOnly(data)
    else
      Message(
        deviceId := Resolve(data, DeviceIdKeys),
        sender := Resolve(data, SenderKeys),
        message := Resolve(data, MessageKeys),
        id := Resolve(data, IdKeys),
        messageType := Or(Get(data, "type"), Str("text")),
        isGroup := Or(Resolve(data, IsGroupKeys), Bool(false)),
        groupId := Resolve(data, GroupIdKeys),
        groupName := Resolve(data, GroupNameKeys),
        buttonId := Resolve(data, ButtonIdKeys),
        listId := Resolve(data, ListIdKeys),
        url := Resolve(data, UrlKeys),
        caption := Get(data, "caption"),
        filename := Resolve(data, FilenameKeys),
        timestamp := Or(Get(data, "timestamp"), Num(now)),
        raw := data)
  }

  /** A field takes the value under the first of its keys whose value is
      truthy, and the value under its last key when none is. */
  lemma {:induction false} ResolvePicksFirstTruthyKey(data: Value, keys: seq<string>, i: nat)
    requires i < |keys|
    requires IsTruthy(Get(data, keys[i])) || i == |keys| - 1
    requires forall j :: 0 <= j < i ==> !IsTruthy(Get(data, keys[j]))
    ensures Resolve(data, keys) == Get(data, keys[i])
  {
    var vs := Candidates(data, keys);
    assert NoneTruthy(vs[..i]) by {
      forall k | 0 <= k < i ensures !IsTruthy(vs[..i][k]) { assert vs[..i][k] == Get(data, keys[k]); }
    }
  }

  /** `sender` comes from `sender`, then `from`, then `phone`; `message` from
      `message`, then `text`, then `body`; `url` from `url`, then `media_url`,
      then `mediaUrl`. */
  lemma {:induction false} SenderMessageAndUrlFallbackOrder(data: Value, now: int)
    requires !IsNullish(data)
    ensures var m := ParseWebhookData(data, now);
      && (IsTruthy(Get(data, "sender")) ==> m.sender == Get(data, "sender"))
      && (!IsTruthy(Get(data, "sender")) && IsTruthy(Get(data, "from")) ==> m.sender == Get(data, "from"))
      && (!IsTruthy(Get(data, "sender")) && !IsTruthy(Get(data, "from")) ==> m.sender == Get(data, "phone"))
    ensures var m := ParseWebhookData(data, now);
      && (IsTruthy(Get(data, "message")) ==> m.message == Get(data, "message"))
      && (!IsTruthy(Get(data, "message")) && IsTruthy(Get(data, "text")) ==> m.message == Get(data, "text"))
      && (!IsTruthy(Get(data, "message")) && !IsTruthy(Get(data, "text")) ==> m.message == Get(data, "body"))
    ensures var m := ParseWebhookData(data, now);
      && (IsTruthy(Get(data, "url")) ==> m.url == Get(data, "url"))
      && (!IsTruthy(Get(data, "url")) && IsTruthy(Get(data, "media_url")) ==> m.url == Get(data, "media_url"))
      && (!IsTruthy(Get(data, "url")) && !IsTruthy(Get(data, "media_url")) ==> m.url == Get(data, "mediaUrl"))
  {
    var m := ParseWebhookData(data, now);
    ThreeKeyFallback(data, SenderKeys, m.sender);
    ThreeKeyFallback(data, MessageKeys, m.message);
    ThreeKeyFallback(data, UrlKeys, m.url);
  }

  /** The first-truthy choice among three keys, spelt out case by case. */
  lemma {:induction false} ThreeKeyFallback(data: Value, keys: seq<string>, v: Value)
    requires |keys| == 3
    requires SelectsFirstTruthy(v, Candidates(data, keys))
    ensures IsTruthy(Get(data, keys[0])) ==> v == Get(data, keys[0])
    ensures !IsTruthy(Get(data, keys[0])) && IsTruthy(Get(data, keys[1])) ==> v == Get(data, keys[1])
    ensures !IsTruthy(Get(data, keys[0])) && !IsTruthy(Get(data, keys[1])) ==> v == Get(data, keys[2])
  {
    var vs := Candidates(data, keys);
    assert vs[0] == Get(data, keys[0]) && vs[1] == Get(data, keys[1]) && vs[2] == Get(data, keys[2]);
    assert NoneTruthy(vs[..0]);
    if !IsTruthy(vs[0]) {
      assert NoneTruthy(vs[..1]) by { assert vs[..1] == [vs[0]]; }
      if !IsTruthy(vs[1]) {
        assert NoneTruthy(vs[..2]) by { assert vs[..2] == [vs[0], vs[1]]; }
      }
    }
  }
}
