/** What the browser-side components share: toasts, the result of a
    `fetch` followed by `response.json()`, and property reads on a parsed
    JSON value. */
module Ui {
  import opened Js

  /** A toast: title, description and variant. */
  datatype Toast = Toast(title: string, description: string, variant: string)

  /** The body of a reply: JSON text that parsed, or a parse failure. */
  datatype Body = Unparsable(message: string) | Json(data: Value)

  /** What `fetch` produced: a rejection (network failure) with its error
      message, or a response with a status and a body. */
  datatype Fetched = NetworkError(message: string) | Reply(status: nat, body: Body)

  /** `response.ok`. */
  predicate Ok(status: nat)
  {
    200 <= status <= 299
  }

  /** The result of reading `v.key`: reading a property of `null` throws a
      TypeError; any other value yields the property or `undefined`. */
  datatype Access = ThrewTypeError | Read(value: Option<Value>)

  function Property(v: Value, key: string): (a: Access)
    ensures a.ThrewTypeError? <==> v.Null?
    ensures v.Object? ==> a == Read(Get(v.props, key))
  {
    match v
    case Null => ThrewTypeError
    case Object(props) => Read(Get(props, key))
    case _ => Read(None)
  }

  /** The text of that TypeError as the browser's engine (V8) words it. */
  function NullReadMessage(key: string): string
  {
    "Cannot read properties of null (reading '" + key + "')"
  }
}
