/** The parsed API reply and fetchTOC's test of it: which replies render a TOC and what
    message every other reply shows. */
module Response {
  import opened Wrappers
  import opened TocBuilder

  /** One entry of `parse.langlinks`: a language code and the article's title (`'*'`)
      in that language. */
  datatype LangLink = LangLink(lang: string, title: string)

  /** `data.error`; its `info` may be absent. */
  datatype ApiError = ApiError(info: Option<string>)

  datatype Parse = Parse(sections: seq<Section>, langlinks: seq<LangLink>)

  /** The JSON body: `error` and `parse` are each present or absent. */
  datatype Data = Data(error: Option<ApiError>, parse: Option<Parse>)

  /** What the transport delivered: a non-OK status, or an OK status with a parsed body. */
  datatype Reply = NotOk | Ok(data: Data)

  const NetworkErrorMessage: string := "A network error occurred..."
  const FallbackMessage: string := "An error occurred while fetching data..."

  /** The failures the handler's `catch` receives: an `Error` thrown with a message, or the
      engine's TypeError for reading `property` of undefined (its text is the engine's). */
  datatype Failure = Thrown(message: string) | ReadOfUndefined(property: string)

  datatype Outcome = Failed(failure: Failure) | Succeeded(parse: Parse)

  /** JavaScript truthiness of an optional string: present and not empty. */
  predicate Truthy(s: Option<string>) {
    s.Some? && s.value != ""
  }

  /** A non-OK status throws the network message. Otherwise `data.error ||
      data.parse.sections.length === 0` is evaluated left to right: a present error throws
      its `info` when truthy and the fallback message otherwise; with no error, a missing
      `parse` fails reading `sections`, and an empty section list fails reading `info` of
      the missing error, so the fallback message is never what it shows. */
  function Classify(reply: Reply): (r: Outcome)
    ensures reply.NotOk? ==> r == Failed(Thrown(NetworkErrorMessage))
    ensures reply.Ok? && reply.data.error.Some? ==>
              var info := reply.data.error.value.info;
              r == Failed(Thrown(if Truthy(info) then info.value else FallbackMessage))
    ensures reply.Ok? && reply.data.error.None? && reply.data.parse.None? ==>
              r == Failed(ReadOfUndefined("sections"))
    ensures reply.Ok? && reply.data.error.None? && reply.data.parse.Some? ==>
              if reply.data.parse.value.sections == [] then r == Failed(ReadOfUndefined("info"))
              else r == Succeeded(reply.data.parse.value)
  {
    match reply
    case NotOk => Failed(Thrown(NetworkErrorMessage))
    case Ok(data) =>
      if data.error.Some? then
        var info := data.error.value.info;
        Failed(Thrown(if Truthy(info) then info.value else FallbackMessage))
      else if data.parse.None? then
        Failed(ReadOfUndefined("sections"))
      else if |data.parse.value.sections| == 0 then
        Failed(ReadOfUndefined("info"))
      else
        Succeeded(data.parse.value)
  }

  /** A TOC is rendered exactly for an OK reply without an error and with at least one
      section, and then with that reply's own sections and language links. */
  lemma SucceedsIff(reply: Reply)
    ensures Classify(reply).Succeeded? <==>
              reply.Ok? && reply.data.error.None? && reply.data.parse.Some?
              && |reply.data.parse.value.sections| > 0
    ensures Classify(reply).Succeeded? ==> Classify(reply).parse == reply.data.parse.value
  {
  }

  /** The generic fallback message appears only for an API error whose `info` is not
      truthy (or is that very text); never for an empty section list. */
  lemma FallbackOnlyForInfolessError(reply: Reply)
    ensures Classify(reply) == Failed(Thrown(FallbackMessage)) <==>
              reply.Ok? && reply.data.error.Some?
              && (!Truthy(reply.data.error.value.info)
                  || reply.data.error.value.info.value == FallbackMessage)
  {
  }
}
