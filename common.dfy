/** Small value helpers shared by the cart and catalog models: an optional
    value (a request field or document field that may be absent) and the
    truthiness tests the route handlers apply to such fields. */
module Common {

  datatype Option<+T> = None | Some(value: T)

  /** Document ids of products and users, as the strings clients send. */
  type ProductId = string
  type UserId = string

  /** An optional string is truthy when it is present and not empty. */
  predicate Truthy(s: Option<string>) {
    s.Some? && s.value != ""
  }

  /** An optional number is truthy when it is present and not zero. */
  predicate TruthyNum(n: Option<int>) {
    n.Some? && n.value != 0
  }
}
