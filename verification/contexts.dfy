/**
 `ContextProvider`: where the serialised correlation context lives among a
 delivery's headers, and how it is read back. The serialiser is the
 `deserialize` argument; it may yield null, written None.
 */
module Contexts {
  import opened Wrappers
  import opened Text
  import opened Options

  /** A header value. Only `StringValue` is a .NET `string`; raw bytes, any
      other object, and a key present with a null value (`OtherValue`) are not. */
  datatype HeaderValue = StringValue(text: string) | BytesValue(bytes: seq<bv8>) | OtherValue

  type Headers = map<string, HeaderValue>

  /** The header used when none is configured. */
  const DefaultHeaderName: string := "message_context"

  datatype ContextProvider = ContextProvider(headerName: string)

  /** The provider's constructor: the configured `Context.Header`, unless the
      context options or the header are null or blank. */
  function NewContextProvider(options: RabbitMqOptions): (p: ContextProvider)
    ensures options.context.None? || IsNullOrWhiteSpace(options.context.value.header)
      ==> p.headerName == DefaultHeaderName
    ensures options.context.Some? && !IsNullOrWhiteSpace(options.context.value.header)
      ==> Some(p.headerName) == options.context.value.header
    ensures !IsNullOrWhiteSpace(Some(p.headerName)) && |p.headerName| > 0
  {
    var header := if options.context.Some? then options.context.value.header else None;
    assert !IsWhiteSpace(DefaultHeaderName[0]);
    ContextProvider(if IsNullOrWhiteSpace(header) then DefaultHeaderName else header.value)
  }

  /** `Get`: the deserialised context held under the provider's header, or
      None when there is no such header or its value is not a string. */
  function Get<C>(p: ContextProvider, headers: Headers, deserialize: string -> Option<C>): (r: Option<C>)
    ensures p.headerName !in headers ==> r.None?
    ensures p.headerName in headers && !headers[p.headerName].StringValue? ==> r.None?
    ensures p.headerName in headers && headers[p.headerName].StringValue?
      ==> r == deserialize(headers[p.headerName].text)
  {
    if p.headerName !in headers then None
    else match headers[p.headerName]
      case StringValue(payload) => deserialize(payload)
      case _ => None
  }

  /** Only the provider's own header matters: two header maps that agree on
      it give the same context. */
  lemma GetReadsOnlyItsHeader<C>(p: ContextProvider, h1: Headers, h2: Headers, deserialize: string -> Option<C>)
    requires p.headerName in h1 <==> p.headerName in h2
    requires p.headerName in h1 ==> h1[p.headerName] == h2[p.headerName]
    ensures Get(p, h1, deserialize) == Get(p, h2, deserialize)
  {
  }

  /** Adding, replacing or removing any other header leaves the context read
      unchanged. */
  lemma GetIgnoresOtherHeaders<C>(p: ContextProvider, headers: Headers, key: string, v: HeaderValue,
                                  deserialize: string -> Option<C>)
    requires key != p.headerName
    ensures Get(p, headers[key := v], deserialize) == Get(p, headers, deserialize)
    ensures Get(p, headers - {key}, deserialize) == Get(p, headers, deserialize)
  {
    GetReadsOnlyItsHeader(p, headers[key := v], headers, deserialize);
    GetReadsOnlyItsHeader(p, headers - {key}, headers, deserialize);
  }

  /** A context written as a string under the provider's header is read back
      through the deserialiser, whatever else the headers hold. */
  lemma GetAfterPut<C>(p: ContextProvider, headers: Headers, payload: string, deserialize: string -> Option<C>)
    ensures Get(p, headers[p.headerName := StringValue(payload)], deserialize) == deserialize(payload)
  {
  }
}
