/** The outbound client: one canonical send path that validates the target,
    builds the request body and shapes the gateway's answer, and thin
    variants that check their own required fields before delegating to it.
    The HTTP exchange itself is a parameter: the outcome of the request
    (an answer body for a 2xx status, or the thrown error) is passed in, so
    body and result are functions of options, configuration and outcome. */
module Client {
  import opened Results
  import opened JsValue
  import opened Types
  import opened Utils
  import opened Templates

  const DefaultBaseUrl := "https://api.fonnte.com"
  const DefaultTimeout := 30000

  const MessageSentDefault := "Message sent successfully"
  const DeviceStatusDefault := "Device status retrieved"
  const MediaUrlRequired := "URL is required for media messages"
  const DocumentUrlRequired := "URL is required for document messages"
  const FilenameRequired := "Filename is required for document messages"
  const ButtonTemplateRequired := "Button template is required for button messages"
  const ListTemplateRequired := "List template is required for list messages"
  const DeviceIdRequired := "Device ID is required"

  /** A configured client: the API key, the endpoint, the default device and the timeout. */
  datatype FonnteClient = FonnteClient(apiKey: string, baseUrl: Value, deviceId: Value, timeout: Value)

  /** The request the client issues: a JSON POST to `/send` or a GET to
      `/device` with query parameters; both carry the API key. */
  datatype ApiRequest =
    | HttpPost(path: string, body: Body)
    | HttpGet(path: string, params: map<string, Value>)

  /** What the transport did with a request: a 2xx answer with its body, or a
      thrown error (a non-2xx answer, no answer, or a failure to send). */
  datatype HttpOutcome = Resolved(data: Value) | Threw(error: Thrown)

  /** One client call: the request it issued, if any, and its result. */
  datatype Call = Call(request: Option<ApiRequest>, result: FonnteResponse)

  /** The constructor: a falsy base URL or timeout is replaced by its default. */
  function NewClient(config: FonnteConfig): (c: FonnteClient)
    ensures c.apiKey == config.apiKey && c.deviceId == config.deviceId
    ensures IsTruthy(c.baseUrl) && IsTruthy(c.timeout)
    ensures IsTruthy(config.baseUrl) ==> c.baseUrl == config.baseUrl
    ensures !IsTruthy(config.baseUrl) ==> c.baseUrl == Str(DefaultBaseUrl)
    ensures IsTruthy(config.timeout) ==> c.timeout == config.timeout
    ensures !IsTruthy(config.timeout) ==> c.timeout == Num(DefaultTimeout)
  {
    FonnteClient(config.apiKey, Or(config.baseUrl, Str(DefaultBaseUrl)), config.deviceId, Or(config.timeout, Num(DefaultTimeout)))
  }

  // ---------------------------------------------------------------------------
  // Request body
  // ---------------------------------------------------------------------------

  /** The properties a request body can have; `Name` gives each its wire name. */
  datatype Key =
    | Target | MessageText | Device
    | Url | Schedule | Delay | Typing | Read | Online | Filename | Footer | Header
    | ButtonField | ListField

  function Name(k: Key): string {
    match k
    case Target => "target"
    case MessageText => "message"
    case Device => "device"
    case Url => "url"
    case Schedule => "schedule"
    case Delay => "delay"
    case Typing => "typing"
    case Read => "read"
    case Online => "online"
    case Filename => "filename"
    case Footer => "footer"
    case Header => "header"
    case ButtonField => "button"
    case ListField => "list"
  }

  /** Distinct properties have distinct wire names, so a body keyed by
      property is a body keyed by name. */
  lemma NamesAreDistinct(a: Key, b: Key)
    ensures Name(a) == Name(b) <==> a == b
  {
    if a != b {
      assert |Name(a)| != |Name(b)| || Name(a)[0] != Name(b)[0] || Name(a)[1] != Name(b)[1];
    }
  }

  /** The body of `POST /send`, keyed by property. */
  type Body = map<Key, Value>

  /** The optional options with the key each is copied to when truthy, in source order. */
  function OptionalFields(o: MessageOptions): seq<(Key, Value)> {
    [(Url, o.url), (Schedule, o.schedule), (Delay, o.delay), (Typing, o.typing), (Read, o.read),
     (Online, o.online), (Filename, o.filename), (Footer, o.footer), (Header, o.header)]
  }

  predicate IsOptionalKey(k: Key) {
    !(k.Target? || k.MessageText? || k.Device? || k.ButtonField? || k.ListField?)
  }

  function FieldKeys(fields: seq<(Key, Value)>): set<Key> {
    set i | 0 <= i < |fields| :: fields[i].0
  }

  predicate KeysDistinct(fields: seq<(Key, Value)>) {
    forall i, j :: 0 <= i < j < |fields| ==> fields[i].0 != fields[j].0
  }

  /** `if (options.k) data.k = options.k` for each field in turn. */
  function AddOptional(body: Body, fields: seq<(Key, Value)>): (r: Body)
    requires KeysDistinct(fields)
    ensures forall i :: 0 <= i < |fields| ==> (fields[i].0 in r <==> fields[i].0 in body || IsTruthy(fields[i].1))
    ensures forall i :: 0 <= i < |fields| && IsTruthy(fields[i].1) ==> r[fields[i].0] == fields[i].1
    ensures forall k :: k !in FieldKeys(fields) ==> (k in r <==> k in body)
    ensures forall k :: k !in FieldKeys(fields) && k in body ==> r[k] == body[k]
    decreases |fields|
  {
    if |fields| == 0 then body
    else
      var (k, v) := fields[0];
      var next := if IsTruthy(v) then body[k := v] else body;
      assert FieldKeys(fields) == {k} + FieldKeys(fields[1..]) by {
        forall x | x in FieldKeys(fields) ensures x in {k} + FieldKeys(fields[1..]) {
          var i :| 0 <= i < |fields| && fields[i].0 == x;
          if i > 0 { assert fields[1..][i - 1] == fields[i]; }
        }
      }
      assert k !in FieldKeys(fields[1..]);
      AddOptional(next, fields[1..])
  }

  /** The option an optional key is copied from (nothing for the other keys). */
  function OptionValue(o: MessageOptions, k: Key): Value {
    match k
    case Url => o.url
    case Schedule => o.schedule
    case Delay => o.delay
    case Typing => o.typing
    case Read => o.read
    case Online => o.online
    case Filename => o.filename
    case Footer => o.footer
    case Header => o.header
    case _ => Undefined
  }

  /** The optional part of the body: an optional key is present exactly
      when its option is truthy, and then holds the option's value. */
  function OptionalBody(o: MessageOptions): (r: Body)
    ensures forall k :: k in r <==> IsOptionalKey(k) && IsTruthy(OptionValue(o, k))
    ensures forall k :: k in r ==> r[k] == OptionValue(o, k)
  {
    OptionalFieldsAreDistinct(o);
    var r := AddOptional(map[], OptionalFields(o));
    assert forall k :: k in r ==> IsOptionalKey(k);
    r
  }

  /** The template part of the body: `button` and `list` when their templates are present. */
  function TemplateBody(o: MessageOptions): (r: Body)
    ensures ButtonField in r <==> o.buttonTemplate.Some?
    ensures o.buttonTemplate.Some? ==> DecodeButtons(r[ButtonField]) == Some(o.buttonTemplate.value.buttons)
    ensures ListField in r <==> o.listTemplate.Some?
    ensures o.listTemplate.Some? ==> DecodeList(r[ListField]) == Some(NormalizeList(o.listTemplate.value))
    ensures forall k :: k in r ==> k.ButtonField? || k.ListField?
  {
    TemplatesRoundTrip(o);
    var button: Body := if o.buttonTemplate.Some? then map[ButtonField := EncodeButtons(o.buttonTemplate.value.buttons)] else map[];
    var list: Body := if o.listTemplate.Some? then map[ListField := EncodeList(o.listTemplate.value)] else map[];
    button + list
  }

  /** The body of `POST /send` for a validated target: the target, the
      message and the device; each optional option that is truthy; the
      encoded templates that are present; and nothing else. */
  function BuildRequestBody(c: FonnteClient, o: MessageOptions, target: string): (body: Body)
    ensures Target in body && body[Target] == Str(target)
    ensures MessageText in body && body[MessageText] == o.message
    ensures Device in body
    ensures IsTruthy(o.deviceId) ==> body[Device] == o.deviceId
    ensures !IsTruthy(o.deviceId) ==> body[Device] == c.deviceId
    ensures ButtonField in body <==> o.buttonTemplate.Some?
    ensures ListField in body <==> o.listTemplate.Some?
  {
    var base: Body := map[Target := Str(target), MessageText := o.message, Device := Or(o.deviceId, c.deviceId)];
    var optional := OptionalBody(o);
    var templates := TemplateBody(o);
    assert Target !in optional && MessageText !in optional && Device !in optional;
    assert Target !in templates && MessageText !in templates && Device !in templates;
    assert ButtonField !in optional && ListField !in optional;
    assert forall k :: IsOptionalKey(k) ==> k !in templates && k !in base;
    base + optional + templates
  }

  /** An optional key is in the body exactly when its option is truthy,
      and then holds the option's value. */
  lemma {:induction false} BodyOptionalFields(c: FonnteClient, o: MessageOptions, target: string)
    ensures forall k :: IsOptionalKey(k) ==> (k in BuildRequestBody(c, o, target) <==> IsTruthy(OptionValue(o, k)))
    ensures forall k :: IsOptionalKey(k) && k in BuildRequestBody(c, o, target) ==>
      BuildRequestBody(c, o, target)[k] == OptionValue(o, k)
  {
    var body, optional := BuildRequestBody(c, o, target), OptionalBody(o);
    assert forall k :: IsOptionalKey(k) ==> k !in TemplateBody(o);
    assert forall k :: IsOptionalKey(k) ==> (k in body <==> k in optional);
  }

  /** The body's `button` and `list` decode back to the options' buttons
      and list (the list normalised). */
  lemma {:induction false} BodyTemplatesDecode(c: FonnteClient, o: MessageOptions, target: string)
    ensures o.buttonTemplate.Some? ==>
      DecodeButtons(BuildRequestBody(c, o, target)[ButtonField]) == Some(o.buttonTemplate.value.buttons)
    ensures o.listTemplate.Some? ==>
      DecodeList(BuildRequestBody(c, o, target)[ListField]) == Some(NormalizeList(o.listTemplate.value))
  {
    var body, templates := BuildRequestBody(c, o, target), TemplateBody(o);
    assert ButtonField in templates ==> body[ButtonField] == templates[ButtonField];
    assert ListField in templates ==> body[ListField] == templates[ListField];
  }

  /** The optional keys are distinct, and they are exactly the keys that
      are neither fixed nor template keys. */
  lemma OptionalFieldsAreDistinct(o: MessageOptions)
    ensures KeysDistinct(OptionalFields(o))
    ensures forall k :: k in FieldKeys(OptionalFields(o)) <==> IsOptionalKey(k)
    ensures forall i :: 0 <= i < |OptionalFields(o)| ==> OptionalFields(o)[i].1 == OptionValue(o, OptionalFields(o)[i].0)
  {
    var f := OptionalFields(o);
    forall k | IsOptionalKey(k) ensures k in FieldKeys(f) {
      var i := match k
        case Url => 0 case Schedule => 1 case Delay => 2 case Typing => 3 case Read => 4
        case Online => 5 case Filename => 6 case Footer => 7 case _ => 8;
      assert f[i].0 == k;
    }
  }

  lemma {:induction false} TemplatesRoundTrip(o: MessageOptions)
    ensures o.buttonTemplate.Some? ==>
      DecodeButtons(EncodeButtons(o.buttonTemplate.value.buttons)) == Some(o.buttonTemplate.value.buttons)
    ensures o.listTemplate.Some? ==>
      DecodeList(EncodeList(o.listTemplate.value)) == Some(NormalizeList(o.listTemplate.value))
  {
    if o.buttonTemplate.Some? {
      ButtonsRoundTrip(o.buttonTemplate.value.buttons);
    }
    if o.listTemplate.Some? {
      ListRoundTrip(o.listTemplate.value);
    }
  }

  // ---------------------------------------------------------------------------
  // Result shaping
  // ---------------------------------------------------------------------------

  /** Turns the transport outcome into a result: a 2xx body becomes
      `{status: body.status || true, message: body.message || default, data: body}`;
      a thrown error, and the TypeError of reading `status` from a `null` or
      `undefined` body, go through the error formatter. */
  function ShapeResponse(outcome: HttpOutcome, defaultMessage: string): (r: FonnteResponse)
    requires defaultMessage != ""
    ensures r.Answered? <==> outcome.Resolved? && !IsNullish(outcome.data)
    ensures IsTruthy(r.Status()) <==> r.Answered?
    ensures r.Answered? ==>
      && r.data == outcome.data
      && IsTruthy(r.message)
      && (IsTruthy(Get(r.data, "message")) ==> r.message == Get(r.data, "message"))
      && (!IsTruthy(Get(r.data, "message")) ==> r.message == Str(defaultMessage))
      && (IsTruthy(Get(r.data, "status")) ==> r.status == Get(r.data, "status"))
      && (Get(r.data, "status").Bool? || !IsTruthy(Get(r.data, "status")) ==> r.status == Bool(true))
    ensures outcome.Threw? ==> r == FormatError(outcome.error)
    ensures outcome.Resolved? && IsNullish(outcome.data) ==> r == FormatError(PropertyReadError(outcome.data, "status"))
  {
    match outcome
    case Threw(e) => FormatError(e)
    case Resolved(data) =>
      if IsNullish(data) then FormatError(PropertyReadError(data, "status"))
      else Answered(Or(Get(data, "status"), Bool(true)), Or(Get(data, "message"), Str(defaultMessage)), data)
  }

  // ---------------------------------------------------------------------------
  // Send operations
  // ---------------------------------------------------------------------------

  /** The canonical send path. */
  function SendMessage(c: FonnteClient, o: MessageOptions, outcome: HttpOutcome): (r: Call)
    ensures r.request.None? <==> ValidatePhoneNumber(o.target).Failure?
    ensures r.request.None? ==>
      r.result == Failed(Str(InvalidPhoneMessage), Cause(ErrorWithMessage(InvalidPhoneMessage)), 0)
    ensures r.request.Some? ==>
      && r.request.value.HttpPost?
      && r.request.value.path == "/send"
      && r.request.value.body == BuildRequestBody(c, o, StripNonDigits(o.target))
      && r.result == ShapeResponse(outcome, MessageSentDefault)
    ensures IsTruthy(r.result.Status()) <==> r.request.Some? && outcome.Resolved? && !IsNullish(outcome.data)
  {
    match ValidatePhoneNumber(o.target)
    case Failure(text) => Call(None, FormatError(ErrorWithMessage(text)))
    case Success(target) =>
      Call(Some(HttpPost("/send", BuildRequestBody(c, o, target))), ShapeResponse(outcome, MessageSentDefault))
  }

  /** A media message needs a URL. */
  function SendMedia(c: FonnteClient, o: MessageOptions, outcome: HttpOutcome): (r: Call)
    ensures !IsTruthy(o.url) ==> r == Call(None, Refused(Str(MediaUrlRequired)))
    ensures IsTruthy(o.url) ==> r == SendMessage(c, o, outcome)
    ensures r.request.None? <==> !IsTruthy(o.url) || ValidatePhoneNumber(o.target).Failure?
  {
    if !IsTruthy(o.url) then Call(None, Refused(Str(MediaUrlRequired)))
    else SendMessage(c, o, outcome)
  }

  /** A document needs a URL and then a filename; the URL is checked first. */
  function SendDocument(c: FonnteClient, o: MessageOptions, outcome: HttpOutcome): (r: Call)
    ensures !IsTruthy(o.url) ==> r == Call(None, Refused(Str(DocumentUrlRequired)))
    ensures IsTruthy(o.url) && !IsTruthy(o.filename) ==> r == Call(None, Refused(Str(FilenameRequired)))
    ensures IsTruthy(o.url) && IsTruthy(o.filename) ==> r == SendMessage(c, o, outcome)
    ensures r.request.None? <==> !IsTruthy(o.url) || !IsTruthy(o.filename) || ValidatePhoneNumber(o.target).Failure?
  {
    if !IsTruthy(o.url) then Call(None, Refused(Str(DocumentUrlRequired)))
    else if !IsTruthy(o.filename) then Call(None, Refused(Str(FilenameRequired)))
    else SendMessage(c, o, outcome)
  }

  predicate HasButtons(o: MessageOptions) {
    o.buttonTemplate.Some? && |o.buttonTemplate.value.buttons| > 0
  }

  predicate HasSections(o: MessageOptions) {
    o.listTemplate.Some? && |o.listTemplate.value.sections| > 0
  }

  /** A button message needs a template with at least one button. */
  function SendButtons(c: FonnteClient, o: MessageOptions, outcome: HttpOutcome): (r: Call)
    ensures !HasButtons(o) ==> r == Call(None, Refused(Str(ButtonTemplateRequired)))
    ensures HasButtons(o) ==> r == SendMessage(c, o, outcome)
    ensures r.request.None? <==> !HasButtons(o) || ValidatePhoneNumber(o.target).Failure?
  {
    if o.buttonTemplate.None? || |o.buttonTemplate.value.buttons| == 0 then Call(None, Refused(Str(ButtonTemplateRequired)))
    else SendMessage(c, o, outcome)
  }

  /** A list message needs a template with at least one section. */
  function SendList(c: FonnteClient, o: MessageOptions, outcome: HttpOutcome): (r: Call)
    ensures !HasSections(o) ==> r == Call(None, Refused(Str(ListTemplateRequired)))
    ensures HasSections(o) ==> r == SendMessage(c, o, outcome)
    ensures r.request.None? <==> !HasSections(o) || ValidatePhoneNumber(o.target).Failure?
  {
    if o.listTemplate.None? || |o.listTemplate.value.sections| == 0 then Call(None, Refused(Str(ListTemplateRequired)))
    else SendMessage(c, o, outcome)
  }

  /** The status of the given device, or of the configured one. */
  function GetDeviceStatus(c: FonnteClient, deviceId: Value, outcome: HttpOutcome): (r: Call)
    ensures !IsTruthy(deviceId) && !IsTruthy(c.deviceId) ==> r == Call(None, Refused(Str(DeviceIdRequired)))
    ensures r.request.Some? <==> IsTruthy(deviceId) || IsTruthy(c.deviceId)
    ensures r.request.Some? ==>
      && r.request.value.HttpGet?
      && r.request.value.path == "/device"
      && r.request.value.params == map["device" := if IsTruthy(deviceId) then deviceId else c.deviceId]
      && r.result == ShapeResponse(outcome, DeviceStatusDefault)
  {
    var device := Or(deviceId, c.deviceId);
    if !IsTruthy(device) then Call(None, Refused(Str(DeviceIdRequired)))
    else Call(Some(HttpGet("/device", map["device" := device])), ShapeResponse(outcome, DeviceStatusDefault))
  }

  // ---------------------------------------------------------------------------
  // Properties across calls
  // ---------------------------------------------------------------------------

  /** An invalid target is refused before any request: the transport outcome
      plays no part, and the result is the validation message with status
      code 0. */
  lemma InvalidTargetIssuesNoRequest(c: FonnteClient, o: MessageOptions, first: HttpOutcome, second: HttpOutcome)
    requires DigitCount(o.target) < 10 || DigitCount(o.target) > 15
    ensures SendMessage(c, o, first) == SendMessage(c, o, second)
    ensures SendMessage(c, o, first).request.None?
    ensures SendMessage(c, o, first).result.message == Str(InvalidPhoneMessage)
    ensures SendMessage(c, o, first).result.statusCode == 0
  {
  }

  /** Every variant short-circuits or delegates unchanged: a variant that
      issues a request issues exactly the request of the canonical path and
      returns exactly its result. */
  lemma VariantsDelegateUnchanged(c: FonnteClient, o: MessageOptions, outcome: HttpOutcome)
    ensures SendMedia(c, o, outcome).request.Some? ==> SendMedia(c, o, outcome) == SendMessage(c, o, outcome)
    ensures SendDocument(c, o, outcome).request.Some? ==> SendDocument(c, o, outcome) == SendMessage(c, o, outcome)
    ensures SendButtons(c, o, outcome).request.Some? ==> SendButtons(c, o, outcome) == SendMessage(c, o, outcome)
    ensures SendList(c, o, outcome).request.Some? ==> SendList(c, o, outcome) == SendMessage(c, o, outcome)
  {
  }

  /** A 2xx answer whose body declares `status: false` is still reported as a
      success, because `false || true` is `true`. */
  lemma DeclaredFailureReportedAsSuccess(c: FonnteClient, o: MessageOptions, body: map<string, Value>)
    requires ValidatePhoneNumber(o.target).Success?
    requires "status" in body && body["status"] == Bool(false)
    ensures SendMessage(c, o, Resolved(Obj(body))).result.Status() == Bool(true)
  {
  }

  /** A device-status answer `{status: true, data: …}` without a message is
      reported with the default message and the whole body as data. */
  lemma DeviceStatusExample(c: FonnteClient, device: string, info: Value)
    requires device != ""
    ensures var body := Obj(map["status" := Bool(true), "data" := info]);
      GetDeviceStatus(c, Str(device), Resolved(body)).result
        == Answered(Bool(true), Str(DeviceStatusDefault), body)
  {
    var body := Obj(map["status" := Bool(true), "data" := info]);
    assert Get(body, "message") == Undefined;
    assert Get(body, "status") == Bool(true);
  }
}
