/**
 The per-delivery pipe context the two staged middlewares share, the outcome
 of running the rest of the pipe, and the calls a stage makes to its
 collaborators, in order.
 */
module Pipe {

  /** An `ICorrelationContext`: the retry counter and the application's own
      fields, which the modelled stages never look at. */
  datatype CorrelationContext<A> = CorrelationContext(retries: int, application: A)

  /** What `GetMessageContext()` returns: nothing, an object that is not an
      `ICorrelationContext`, or a correlation context. */
  datatype MessageContext<A> = NoContext | ForeignContext | Correlation(context: CorrelationContext<A>)

  /** `GetRetryInformation()`, as supplied by the retry-later plugin. */
  datatype RetryInformation = RetryInformation(numberOfRetries: int)

  /** The parts of `IPipeContext` the stages read; `messageId` is the
      delivery's `BasicProperties.MessageId`. */
  datatype PipeContext<A> = PipeContext(
    messageContext: MessageContext<A>,
    retryInformation: RetryInformation,
    messageId: string)

  /** How `Next.InvokeAsync` ended: normally, or by throwing `error`. */
  datatype Outcome<E> = Completed | Faulted(error: E)

  /** A call a stage makes: the processor's `TryProcessAsync` and
      `RemoveAsync`, and the next stage with the context it is handed. */
  datatype Call<A> = TryProcess(id: string) | Next(context: PipeContext<A>) | Remove(id: string)
}
