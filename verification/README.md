# Convey RabbitMQ integration: unique-message gate, retry stage, naming and context lookup

A Dafny model of the logic in Convey's RabbitMQ integration (`Convey.MessageBrokers.RabbitMQ`) that decides:

- whether a delivery's handler runs. This is the unique-message gate and the choice of message processor behind it.
- what retry count the handler sees. This is the retry stage.
- how exchanges, routing keys and queues are named. These are the custom naming conventions.
- where the correlation context is read from. This is the context provider.

Each part is a pure function over immutable data. External collaborators are parameters:

- the `Underscore()` helper is a `string -> string` argument;
- the serialiser is a `string -> Option<C>` argument;
- the next pipe stage is a `PipeContext -> Outcome` argument;
- the entry assembly's name is a field of `Naming.Conventions`;
- the reflected `MessageNamespaceAttribute` is an optional field of `Naming.MessageType`.

The store of the in-memory and Redis processors is a `set<string>` of claimed message ids. The gate threads it from one delivery to the next.

Files, one module each:

- `wrappers.dfy` holds `Option`, which stands for a nullable reference.
- `text.dfy` holds `string.IsNullOrWhiteSpace`, ASCII `ToLowerInvariant` and single-character `Replace`, with lemmas about lower-casing.
- `options.dfy` holds the slice of `RabbitMqOptions` the logic reads.
- `naming.dfy` holds `CustomNamingConventions` and `GetMessageName`.
- `contexts.dfy` holds `ContextProvider`.
- `pipe.dfy` holds the pipe context, stage outcomes and collaborator calls shared by the two stages.
- `retry.dfy` holds `RetryStagedMiddleware`.
- `processing.dfy` holds processor selection, plugin registration, `EmptyMessageProcessor`, the claim store, `ProcessUniqueMessagesMiddleware`, and the gate applied to a stream of deliveries.

Three behaviours of the code a reader may not expect:

- The error exchange and retry exchange names are not lower-cased (Extensions.cs:161-162). Only the exchange, routing key, queue and retry queue names are (Extensions.cs:163-189).
- The gate passes the delivery's `MessageId` to the processor as it is, with no check for a missing id (Extensions.cs:217).
- The context provider returns the serialiser's result unchanged; it neither catches nor translates deserialisation errors (ContextProvider.cs:30).

## Model

| member | source | states |
|---|---|---|
| Naming.ResolveNamespaceAndKey | src/Convey.MessageBrokers.RabbitMQ/Extensions.cs:191-198 | The namespace is the attribute's namespace whenever it is non-null, including when it is empty; otherwise it is the default namespace. The key is the attribute's key unless that is null or white space; otherwise it is the underscored type name. |
| Naming.AttributeNamespaceOverridesDefault | src/Convey.MessageBrokers.RabbitMQ/Extensions.cs:194 | When the attribute carries a namespace, the exchange, routing key and queue name do not depend on the default namespace. |
| Naming.BlankAttributeNamespaceUsesKey | src/Convey.MessageBrokers.RabbitMQ/Extensions.cs:168-198 | A blank attribute namespace does not fall back to the default. The exchange and the routing key are both the lower-cased key. |
| Naming.AttributeKeyOverridesTypeName | src/Convey.MessageBrokers.RabbitMQ/Extensions.cs:195 | A non-blank attribute key makes every name independent of the type name and of the underscoring helper. |
| Naming.Exchange | src/Convey.MessageBrokers.RabbitMQ/Extensions.cs:168-173 | The exchange is the lower-cased namespace, or the lower-cased key when the namespace is blank. It is a fixed point of lower-casing. |
| Naming.RoutingKey | src/Convey.MessageBrokers.RabbitMQ/Extensions.cs:175-181 | The routing key is lower-case and a fixed point of lower-casing. |
| Naming.QueueName | src/Convey.MessageBrokers.RabbitMQ/Extensions.cs:183-189 | The queue name is lower-case and a fixed point of lower-casing. |
| Naming.RoutingKeyExtendsExchange | src/Convey.MessageBrokers.RabbitMQ/Extensions.cs:168-181 | With a non-blank namespace the routing key is the exchange, a `.`, and the lower-cased key. With a blank namespace the routing key equals the exchange, which is the lower-cased key. |
| Naming.QueueNameEndsWithRoutingKey | src/Convey.MessageBrokers.RabbitMQ/Extensions.cs:175-189 | The queue name is the lower-cased assembly name, `/`, then the routing key. |
| Naming.ErrorExchange | src/Convey.MessageBrokers.RabbitMQ/Extensions.cs:161 | The error exchange is the default namespace verbatim, with case kept and null rendered empty, followed by `.error`. |
| Naming.RetryExchange | src/Convey.MessageBrokers.RabbitMQ/Extensions.cs:162 | The retry exchange is the default namespace verbatim followed by `.retry`, for every delay. |
| Naming.ErrorAndRetryExchangesDiffer | src/Convey.MessageBrokers.RabbitMQ/Extensions.cs:161-162 | The error exchange and the retry exchange are never the same name. |
| Naming.RetryQueueName | src/Convey.MessageBrokers.RabbitMQ/Extensions.cs:163-165 | The retry queue name is lower-case and a fixed point of lower-casing. |
| Naming.RetryQueueNameShape | src/Convey.MessageBrokers.RabbitMQ/Extensions.cs:163-165 | The retry queue name is the lower-cased namespace, `.retry_for_`, the lower-cased exchange with every `.` made `_`, `_in_`, the lower-cased delay, and `_ms`. The exchange segment contains no `.`. |
| Naming.MessageName | src/Convey.MessageBrokers.RabbitMQ/Extensions.cs:31-32 | The message name is lower-case and a fixed point of lower-casing. |
| Naming.MessageNameIsDefaultRoutingKey | src/Convey.MessageBrokers.RabbitMQ/Extensions.cs:31-32 | For a type without attribute under a blank default namespace, the exchange and the routing key both equal the message name. |
| Contexts.NewContextProvider | src/Convey.MessageBrokers.RabbitMQ/Contexts/ContextProvider.cs:10-16 | The header name is `message_context` when the context options or their header are null or blank. Otherwise it is exactly the configured header. It is never null, empty or white space. |
| Contexts.Get | src/Convey.MessageBrokers.RabbitMQ/Contexts/ContextProvider.cs:18-31 | Get is absent when the header is missing or its value is not a string. Otherwise it is the deserialiser applied to the string. |
| Contexts.GetReadsOnlyItsHeader | src/Convey.MessageBrokers.RabbitMQ/Contexts/ContextProvider.cs:20-30 | Two header maps that agree on the provider's header give the same result. |
| Contexts.GetIgnoresOtherHeaders | src/Convey.MessageBrokers.RabbitMQ/Contexts/ContextProvider.cs:20-30 | Setting or removing any other header leaves the result unchanged. |
| Contexts.GetAfterPut | src/Convey.MessageBrokers.RabbitMQ/Contexts/ContextProvider.cs:25-30 | A string stored under the provider's header reads back as its deserialisation. |
| Retry.RetryStage | src/Convey.MessageBrokers.RabbitMQ/Extensions.cs:247-257 | The next stage runs exactly once. With a correlation context it receives that context with `Retries` set to `NumberOfRetries` and application fields kept. Otherwise it receives the context untouched. The retry information and message id never change, and the next stage's outcome, error included, is the stage's outcome. |
| Retry.RetryCountFromDeliveryWins | src/Convey.MessageBrokers.RabbitMQ/Extensions.cs:250-254 | The forwarded context does not depend on the serialised retry count. Its count is the delivery's. |
| Retry.RetryStageIdempotent | src/Convey.MessageBrokers.RabbitMQ/Extensions.cs:250-254 | Running the stage again on the context it forwarded forwards the same context. |
| Processing.SelectMessageProcessor | src/Convey.MessageBrokers.RabbitMQ/Extensions.cs:84-101 | The empty processor is selected iff the processor options are null or disabled. Redis is selected iff they are enabled and the lower-cased type is `redis`. In-memory is selected for any other type, null included. |
| Processing.RedisSelectedForAnyCasing | src/Convey.MessageBrokers.RabbitMQ/Extensions.cs:84-91 | Redis is selected exactly when the processor is enabled and its type spells `redis` in any mix of cases. |
| Processing.RegisteredPlugins | src/Convey.MessageBrokers.RabbitMQ/Extensions.cs:133-146 | The plugins are attribute routing, retry-later, retry info, message context and context forwarding, in that order. The unique-messages stage follows iff the processor options are enabled. |
| Processing.GateRegisteredIffProcessorRemembers | src/Convey.MessageBrokers.RabbitMQ/Extensions.cs:84-145 | The unique-messages stage is registered exactly when the selected processor is not the empty one. |
| Processing.TryProcessAsync | src/Convey.MessageBrokers.RabbitMQ/Extensions.cs:267-272 | The empty processor always grants and keeps nothing. The other processors grant iff the id is unclaimed, and leave it claimed. |
| Processing.RemoveAsync | src/Convey.MessageBrokers.RabbitMQ/Extensions.cs:267-272 | The empty processor removes nothing. The other processors forget the id and keep every other id. |
| Processing.ClaimAfterRemoveGranted | src/Convey.MessageBrokers.RabbitMQ/Extensions.cs:218-229 | After `RemoveAsync(id)`, `TryProcessAsync(id)` is granted again. |
| Processing.SecondClaimRefused | src/Convey.MessageBrokers.RabbitMQ/Extensions.cs:218-221 | On a remembering processor, a second claim of the same id is refused. |
| Processing.Gate | src/Convey.MessageBrokers.RabbitMQ/Extensions.cs:211-233 | The claim comes first. The handler runs iff the claim is granted. A refused claim makes no other call, ends normally and leaves the store unchanged. A completed handler leaves the id claimed and issues no remove. A throwing handler is followed by `RemoveAsync` of the same id, then the identical error. No other id is touched. |
| Processing.GateKeepsClaims | src/Convey.MessageBrokers.RabbitMQ/Extensions.cs:217-231 | On a remembering processor the gate never drops an already claimed id. |
| Processing.EmptyProcessorRunsEveryDelivery | src/Convey.MessageBrokers.RabbitMQ/Extensions.cs:267-272 | A gate backed by the empty processor, taken in isolation, lets every delivery's handler run, including repeated ids. |
| Processing.ReplayStore | src/Convey.MessageBrokers.RabbitMQ/Extensions.cs:217-231 | After a stream of deliveries on a remembering processor, the claimed ids are the initial ones plus exactly the ids whose handler ran and completed. With the empty processor nothing is claimed. |
| Processing.Deliver | src/Convey.MessageBrokers.RabbitMQ/Extensions.cs:84-145 | With the processor disabled the gate is not in the pipe: every handler runs and nothing is claimed. With it enabled, deliveries go through the gate backed by the selected processor. |
| Processing.DeliverCompletedIdNeverRunsAgain | src/Convey.MessageBrokers.RabbitMQ/Extensions.cs:142-145 | In a pipe configured with deduplication enabled, once a delivery of an id completes, no later delivery of that id reaches its handler. |
| Processing.ClaimedIdNeverRuns | src/Convey.MessageBrokers.RabbitMQ/Extensions.cs:217-221 | A delivery whose id is already claimed never reaches its handler, however many deliveries come before it. |
| Processing.CompletedIdNeverRunsAgain | src/Convey.MessageBrokers.RabbitMQ/Extensions.cs:217-225 | Once a handler has completed for an id, no later delivery of that id runs its handler. |
| Processing.FirstDeliveryOfUnclaimedIdRuns | src/Convey.MessageBrokers.RabbitMQ/Extensions.cs:217-225 | The first delivery of an id that was not claimed runs its handler. |
| Processing.FailedIdRunsOnRedelivery | src/Convey.MessageBrokers.RabbitMQ/Extensions.cs:223-231 | After a handler throws, the next delivery of the same id runs its handler again. |

`Get` cannot modify the header map: every member here is a pure function.

## Left out

- Dependency-injection registration and RawRabbit wiring are framework plumbing. This covers Extensions.cs:45-83, 103-131 and 150. It also covers `UseRabbitMq`, `AddExceptionToMessageMapper`, `TryRegister`, Redis options and `AddMemoryCache`.
- Processing.RegisteredPlugins: plugins supplied by the caller, which `ConfigureBus` registers before the fixed chain, are not part of the list.
- `Serializer<T>` and `CorrelationContextConverter<T>` are Newtonsoft JSON glue. Deserialisation is the uninterpreted `deserialize` argument, which yields a context or null.
- Contexts.Get: a deserialiser that throws is not modelled. The argument always returns a value.
- `Underscore()`, `Assembly.GetEntryAssembly()` and the reflective attribute lookup are not part of this model. They are parameters.
- Text.Lower: only ASCII letters are lower-cased, while `ToLowerInvariant` lower-cases every script. For example, a namespace `ÜBER` gives the exchange `über` in .NET but `Über` in the model.
- Naming.RetryQueueName: `TimeSpan.TotalMilliseconds` is a double formatted by .NET. The delay is taken as already formatted text.
- Async execution, cancellation tokens, the DI scope created per delivery, and concurrent claims across threads or instances are not modelled. Deliveries are handled one at a time.
- The in-memory and Redis processors are not part of this model. Their store is reduced to set-if-absent and delete. This leaves out expiry after `MessageExpirySeconds`, cross-instance sharing, and a claim or remove that throws, for example when Redis is unreachable.
- Processing.Gate: the message id is a string. What the processors do with a null `MessageId` is not modelled.
- Null references that make the source throw `NullReferenceException` cannot occur in the model: a null `headers` map (ContextProvider.cs:20), a null `options` (ContextProvider.cs:13), a null `GetRetryInformation()` while a correlation context is present (Extensions.cs:250-253, supplied by the retry-later plugin registered at Extensions.cs:137), a null `exchange` passed to the retry queue convention (Extensions.cs:164) and a null entry assembly (Extensions.cs:157). Header maps, options, retry information, exchange names and the assembly name are always present values here.
- `RabbitMqOptions` keeps only `Namespace`, `Context` and `MessageProcessor`. The context options keep only `Header`, and the processor options only `Enabled` and `Type`; the other fields, `MessageExpirySeconds` included, do not influence the modelled logic. The `Namespace` setting is read by `ConfigureBus` but declared outside the options file.
