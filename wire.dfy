/** Values as they appear in the JavaScript objects and on the watch connectivity channel. */
module Wire {

  datatype Option<T> = None | Some(value: T)

  /** A JSON-like scalar. Numbers are modelled as integers: every number the relay handles
      is an epoch-millisecond reading or a flag. */
  datatype JsValue = JUndefined | JNull | JBool(b: bool) | JNum(n: int) | JStr(s: string)

  /** JavaScript truthiness: undefined, null, false, 0 and the empty string are falsy. */
  predicate Truthy(v: JsValue) {
    match v
    case JUndefined => false
    case JNull => false
    case JBool(b) => b
    case JNum(n) => n != 0
    case JStr(s) => s != ""
  }

  /** A flat message or property bag, keyed by property name. */
  type Message = map<string, JsValue>

  /** Reading a property; a missing key reads as undefined. */
  function Get(m: Message, key: string): JsValue {
    if key in m then m[key] else JUndefined
  }

  /** JavaScript's `a || b`: the first operand when it is truthy, otherwise the second. */
  function Or(a: JsValue, b: JsValue): JsValue {
    if Truthy(a) then a else b
  }

  function OptionToSeq<T>(o: Option<T>): seq<T> {
    match o
    case None => []
    case Some(x) => [x]
  }
}
