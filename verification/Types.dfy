/** The records the library exchanges with its callers and with the gateway:
    client and webhook configuration, outbound message options and their
    templates, the uniform send result, the shape of a thrown error, and the
    normalised inbound message. */
module Types {
  import opened Results
  import opened JsValue

  /** Client construction input: the API key and three optional settings. */
  datatype FonnteConfig = FonnteConfig(apiKey: string, baseUrl: Value, deviceId: Value, timeout: Value)

  datatype Button = Button(display: string, id: string)

  datatype ButtonTemplate = ButtonTemplate(buttons: seq<Button>)

  datatype ListItem = ListItem(title: string, description: Option<string>, id: string)

  datatype Section = Section(title: string, rows: seq<ListItem>)

  datatype ListTemplate = ListTemplate(title: string, sections: seq<Section>)

  /** Options of one outbound message. Every optional scalar is a `Value`
      because the client tests it for truthiness: `delay: 0` and
      `typing: false` count as absent. A template is either absent or an
      object, and an object is always truthy. */
  datatype MessageOptions = MessageOptions(
    target: string,
    message: Value,
    url: Value,
    deviceId: Value,
    schedule: Value,
    delay: Value,
    typing: Value,
    read: Value,
    online: Value,
    filename: Value,
    footer: Value,
    header: Value,
    buttonTemplate: Option<ButtonTemplate>,
    listTemplate: Option<ListTemplate>)

  /** The server's answer attached to an HTTP error (a non-2xx status). */
  datatype ErrorResponse = ErrorResponse(data: Value, status: int, statusText: string)

  /** The properties of a thrown error that the library reads: `response`
      (present for non-2xx answers), `request` (truthy once a request went
      out) and `message`. */
  datatype Thrown = Thrown(response: Option<ErrorResponse>, request: Value, message: Value)

  /** `new Error(text)`: a plain error, with neither response nor request. */
  function ErrorWithMessage(text: string): (e: Thrown)
    ensures e.response.None? && !IsTruthy(e.request) && e.message == Str(text)
  {
    Thrown(None, Undefined, Str(text))
  }

  /** The TypeError that reading `key` from `null` or `undefined` throws,
      with the message text of the V8 engine. */
  function PropertyReadError(v: Value, key: string): Thrown
    requires IsNullish(v)
  {
    var name := if v.Null? then "null" else "undefined";
    ErrorWithMessage("Cannot read properties of " + name + " (reading '" + key + "')")
  }

  /** The `error` property of a failed result: a payload or the thrown error itself. */
  datatype ErrorDetail = Payload(payload: Value) | Cause(cause: Thrown)

  /** The uniform result of every send operation: a 2xx answer, a
      precondition refusal (`{status: false, message}`), or an error shaped by
      the error formatter. */
  datatype FonnteResponse =
    | Answered(status: Value, message: Value, data: Value)
    | Refused(message: Value)
    | Failed(message: Value, error: ErrorDetail, statusCode: int)
  {
    /** The `status` property of the result object. */
    function Status(): Value {
      if Answered? then status else Bool(false)
    }
  }

  /** Webhook construction input. */
  datatype WebhookConfig = WebhookConfig(port: int, path: string, secret: Option<string>)

  /** The normalised inbound message, or only the raw payload when reading
      properties from the payload threw. */
  datatype WebhookMessage =
    | Message(
        deviceId: Value,
        sender: Value,
        message: Value,
        id: Value,
        messageType: Value,
        isGroup: Value,
        groupId: Value,
        groupName: Value,
        buttonId: Value,
        listId: Value,
        url: Value,
        caption: Value,
        filename: Value,
        timestamp: Value,
        raw: Value)
    | RawOnly(raw: Value)
}
