/**
 `CustomNamingConventions`: the exchange, routing key and queue names derived
 from a message type, and the error and retry-later names derived from the
 default namespace. The reflective pieces are parameters: the type's optional
 `MessageNamespaceAttribute` is part of `MessageType`, the entry assembly's name
 is part of `Conventions`, and the `Underscore()` string helper is the
 `underscore` argument.
 */
module Naming {
  import opened Wrappers
  import opened Text

  /** `MessageNamespaceAttribute`: an optional namespace and key override. */
  datatype MessageNamespaceAttribute = MessageNamespaceAttribute(namespace: Option<string>, key: Option<string>)

  /** A message type: its simple name and the attribute it carries, if any. */
  datatype MessageType = MessageType(name: string, attribute: Option<MessageNamespaceAttribute>)

  /** What the conventions capture when they are constructed. */
  datatype Conventions = Conventions(defaultNamespace: Option<string>, assemblyName: string)

  /** The namespace and key a message type resolves to. */
  datatype NamespaceAndKey = NamespaceAndKey(namespace: Option<string>, key: string)

  /** A C# interpolation hole: a null string renders as nothing. */
  function Interpolate(s: Option<string>): string {
    s.GetOr("")
  }

  /** `attribute?.Namespace`. */
  function AttributeNamespace(t: MessageType): Option<string> {
    if t.attribute.Some? then t.attribute.value.namespace else None
  }

  /** `attribute?.Key`. */
  function AttributeKey(t: MessageType): Option<string> {
    if t.attribute.Some? then t.attribute.value.key else None
  }

  /** `GetNamespaceAndKey`: the attribute's namespace unless it is null, and
      the attribute's key unless it is null or white space. */
  function ResolveNamespaceAndKey(t: MessageType, defaultNamespace: Option<string>, underscore: string -> string)
    : (r: NamespaceAndKey)
    ensures AttributeNamespace(t).Some? ==> r.namespace == AttributeNamespace(t)
    ensures AttributeNamespace(t).None? ==> r.namespace == defaultNamespace
    ensures IsNullOrWhiteSpace(AttributeKey(t)) ==> r.key == underscore(t.name)
    ensures !IsNullOrWhiteSpace(AttributeKey(t)) ==> Some(r.key) == AttributeKey(t)
  {
    var namespace := if AttributeNamespace(t).Some? then AttributeNamespace(t) else defaultNamespace;
    var key := if IsNullOrWhiteSpace(AttributeKey(t)) then underscore(t.name) else AttributeKey(t).value;
    NamespaceAndKey(namespace, key)
  }

  /** `namespace.` when the namespace is not blank, otherwise nothing. */
  function SeparatedNamespace(namespace: Option<string>): string {
    if IsNullOrWhiteSpace(namespace) then "" else namespace.value + "."
  }

  /** `GetExchange`: the namespace, or the key when the namespace is blank,
      lower-cased. */
  function Exchange(c: Conventions, t: MessageType, underscore: string -> string): (r: string)
    ensures IsLower(r)
    ensures Lower(r) == r
    ensures var nk := ResolveNamespaceAndKey(t, c.defaultNamespace, underscore);
      r == if IsNullOrWhiteSpace(nk.namespace) then Lower(nk.key) else Lower(nk.namespace.value)
  {
    var nk := ResolveNamespaceAndKey(t, c.defaultNamespace, underscore);
    LowerIdempotent(if IsNullOrWhiteSpace(nk.namespace) then nk.key else Interpolate(nk.namespace));
    Lower(if IsNullOrWhiteSpace(nk.namespace) then nk.key else Interpolate(nk.namespace))
  }

  /** `GetRoutingKey`: `namespace.key`, or just the key when the namespace is
      blank, lower-cased. */
  function RoutingKey(c: Conventions, t: MessageType, underscore: string -> string): (r: string)
    ensures IsLower(r)
    ensures Lower(r) == r
  {
    var nk := ResolveNamespaceAndKey(t, c.defaultNamespace, underscore);
    LowerIdempotent(SeparatedNamespace(nk.namespace) + nk.key);
    Lower(SeparatedNamespace(nk.namespace) + nk.key)
  }

  /** `GetQueueName`: `assembly/namespace.key`, or `assembly/key`, lower-cased. */
  function QueueName(c: Conventions, t: MessageType, underscore: string -> string): (r: string)
    ensures IsLower(r)
    ensures Lower(r) == r
  {
    var nk := ResolveNamespaceAndKey(t, c.defaultNamespace, underscore);
    LowerIdempotent(c.assemblyName + "/" + SeparatedNamespace(nk.namespace) + nk.key);
    Lower(c.assemblyName + "/" + SeparatedNamespace(nk.namespace) + nk.key)
  }

  /** `ErrorExchangeNamingConvention`: the default namespace as configured
      (case kept, null rendered empty) followed by `.error`. */
  function ErrorExchange(c: Conventions): (r: string)
    ensures |r| == |Interpolate(c.defaultNamespace)| + 6
    ensures r[..|Interpolate(c.defaultNamespace)|] == Interpolate(c.defaultNamespace)
    ensures r[|Interpolate(c.defaultNamespace)|..] == ".error"
  {
    Interpolate(c.defaultNamespace) + ".error"
  }

  /** `RetryLaterExchangeConvention`: the default namespace as configured
      followed by `.retry`, whatever the delay. The delay is
      `TimeSpan.TotalMilliseconds` already rendered as text. */
  function RetryExchange(c: Conventions, span: string): (r: string)
    ensures |r| == |Interpolate(c.defaultNamespace)| + 6
    ensures r[..|Interpolate(c.defaultNamespace)|] == Interpolate(c.defaultNamespace)
    ensures r[|Interpolate(c.defaultNamespace)|..] == ".retry"
  {
    Interpolate(c.defaultNamespace) + ".retry"
  }

  /** `RetryLaterQueueNameConvetion`:
      `namespace.retry_for_<exchange with '.' replaced by '_'>_in_<span>_ms`,
      lower-cased. */
  function RetryQueueName(c: Conventions, exchange: string, span: string): (r: string)
    ensures IsLower(r)
    ensures Lower(r) == r
  {
    var name := Interpolate(c.defaultNamespace) + ".retry_for_" + ReplaceChar(exchange, '.', '_') + "_in_" + span + "_ms";
    LowerIdempotent(name);
    Lower(name)
  }

  /** `GetMessageName`: the underscored type name, lower-cased. */
  function MessageName(t: MessageType, underscore: string -> string): (r: string)
    ensures IsLower(r)
    ensures Lower(r) == r
  {
    LowerIdempotent(underscore(t.name));
    Lower(underscore(t.name))
  }

  /** An attribute namespace, even an empty one, takes precedence over the
      default namespace: exchange, routing key and queue do not depend on the
      default at all. */
  lemma AttributeNamespaceOverridesDefault(a: string, d1: Option<string>, d2: Option<string>, t: MessageType,
                                           underscore: string -> string)
    requires AttributeNamespace(t).Some?
    ensures Exchange(Conventions(d1, a), t, underscore) == Exchange(Conventions(d2, a), t, underscore)
    ensures RoutingKey(Conventions(d1, a), t, underscore) == RoutingKey(Conventions(d2, a), t, underscore)
    ensures QueueName(Conventions(d1, a), t, underscore) == QueueName(Conventions(d2, a), t, underscore)
  {
  }

  /** A blank attribute namespace does not fall back to the default: the
      exchange and the routing key are both just the lower-cased key. */
  lemma BlankAttributeNamespaceUsesKey(c: Conventions, t: MessageType, underscore: string -> string)
    requires AttributeNamespace(t).Some? && IsNullOrWhiteSpace(AttributeNamespace(t))
    ensures var key := ResolveNamespaceAndKey(t, c.defaultNamespace, underscore).key;
      Exchange(c, t, underscore) == Lower(key) && RoutingKey(c, t, underscore) == Lower(key)
  {
  }

  /** A non-blank attribute key replaces the type's name: names then depend
      neither on the type name nor on the underscoring helper. */
  lemma AttributeKeyOverridesTypeName(c: Conventions, t1: MessageType, t2: MessageType,
                                      us1: string -> string, us2: string -> string)
    requires t1.attribute == t2.attribute && !IsNullOrWhiteSpace(AttributeKey(t1))
    ensures Exchange(c, t1, us1) == Exchange(c, t2, us2)
    ensures RoutingKey(c, t1, us1) == RoutingKey(c, t2, us2)
    ensures QueueName(c, t1, us1) == QueueName(c, t2, us2)
  {
  }

  /** The routing key is the exchange followed by `.` and the lower-cased key
      when the namespace is not blank, and is the exchange itself otherwise. */
  lemma RoutingKeyExtendsExchange(c: Conventions, t: MessageType, underscore: string -> string)
    ensures var nk := ResolveNamespaceAndKey(t, c.defaultNamespace, underscore);
      if IsNullOrWhiteSpace(nk.namespace)
      then RoutingKey(c, t, underscore) == Exchange(c, t, underscore) == Lower(nk.key)
      else RoutingKey(c, t, underscore) == Exchange(c, t, underscore) + "." + Lower(nk.key)
  {
    var nk := ResolveNamespaceAndKey(t, c.defaultNamespace, underscore);
    if IsNullOrWhiteSpace(nk.namespace) {
      assert SeparatedNamespace(nk.namespace) + nk.key == nk.key;
    } else {
      LowerAppend(nk.namespace.value + ".", nk.key);
      LowerAppend(nk.namespace.value, ".");
      LowerFixesLower(".");
    }
  }

  /** The queue name is the lower-cased assembly name, `/`, and the routing
      key: a queue always ends with its routing key. */
  lemma QueueNameEndsWithRoutingKey(c: Conventions, t: MessageType, underscore: string -> string)
    ensures QueueName(c, t, underscore) == Lower(c.assemblyName) + "/" + RoutingKey(c, t, underscore)
  {
    var nk := ResolveNamespaceAndKey(t, c.defaultNamespace, underscore);
    var body := SeparatedNamespace(nk.namespace) + nk.key;
    assert c.assemblyName + "/" + SeparatedNamespace(nk.namespace) + nk.key == (c.assemblyName + "/") + body;
    LowerAppend(c.assemblyName + "/", body);
    LowerAppend(c.assemblyName, "/");
    LowerFixesLower("/");
  }

  /** The retry queue name is the pieces of its pattern, each lower-cased, and
      the exchange segment holds no `.` at all. */
  lemma RetryQueueNameShape(c: Conventions, exchange: string, span: string)
    ensures RetryQueueName(c, exchange, span) ==
      Lower(Interpolate(c.defaultNamespace)) + ".retry_for_" + Lower(ReplaceChar(exchange, '.', '_'))
      + "_in_" + Lower(span) + "_ms"
    ensures '.' !in Lower(ReplaceChar(exchange, '.', '_'))
  {
    var ex := ReplaceChar(exchange, '.', '_');
    LowerRetryQueuePattern(Interpolate(c.defaultNamespace), ex, span);
    LowerKeepsNonLetter(ex, '.');
  }

  /** Lower-casing the retry queue pattern lower-cases each of its holes and
      leaves its (already lower-case) literal parts alone. */
  lemma LowerRetryQueuePattern(ns: string, ex: string, span: string)
    ensures Lower(ns + ".retry_for_" + ex + "_in_" + span + "_ms") ==
      Lower(ns) + ".retry_for_" + Lower(ex) + "_in_" + Lower(span) + "_ms"
  {
    LowerAppendSixLowerParts(ns, ".retry_for_", ex, "_in_", span, "_ms");
  }

  /** The error exchange and the retry exchange are never the same name. */
  lemma ErrorAndRetryExchangesDiffer(c: Conventions, span: string)
    ensures ErrorExchange(c) != RetryExchange(c, span)
  {
    var n := |Interpolate(c.defaultNamespace)|;
    assert ErrorExchange(c)[n + 1] == 'e' && RetryExchange(c, span)[n + 1] == 'r';
  }

  /** For a type without attribute under a blank default namespace, the
      exchange and the routing key are both the type's message name. */
  lemma MessageNameIsDefaultRoutingKey(c: Conventions, t: MessageType, underscore: string -> string)
    requires t.attribute.None? && IsNullOrWhiteSpace(c.defaultNamespace)
    ensures Exchange(c, t, underscore) == MessageName(t, underscore)
    ensures RoutingKey(c, t, underscore) == MessageName(t, underscore)
  {
    assert SeparatedNamespace(c.defaultNamespace) + underscore(t.name) == underscore(t.name);
  }
}
