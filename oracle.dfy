/** The boundary to code outside the model.  A call into a foreign library
    (PDF parsers, the vector index, the chat model, web search, the
    translator) is an input: what it returned or the exception it raised. */
module Oracle {

  datatype Option<T> = None | Some(value: T)

  /** What a foreign call did: returned a value, or raised with a message (`str(e)`). */
  datatype Outcome<T> = Returned(value: T) | Raised(message: string)

  /** A request made to an outside service. */
  datatype Call =
    | IndexSearch(query: string, k: nat)
    | ModelInvoke(prompt: string)
    | WebSearch(query: string, numResults: nat, lang: string)
    | TranslateRequest(text: string, target: string)

  /** A returned string together with the outside requests made to produce it, in order. */
  datatype Reply = Reply(text: string, calls: seq<Call>)

  /** Python truthiness of an optional string: present and non-empty. */
  predicate Truthy(s: Option<string>)
  {
    s.Some? && s.value != ""
  }
}
