/**
 `RetryStagedMiddleware`: copies the delivery's retry count into the
 correlation context, then hands over to the next stage.
 */
module Retry {
  import opened Pipe

  /** The result of running the stage: the calls it made and how it ended. */
  datatype StageResult<A, E> = StageResult(calls: seq<Call<A>>, outcome: Outcome<E>)

  /** `RetryStagedMiddleware.InvokeAsync`: when the message context is a
      correlation context its `Retries` becomes `NumberOfRetries`; nothing
      else changes, the next stage runs exactly once with that context, and
      its outcome, error included, is the stage's. */
  function RetryStage<A, E>(ctx: PipeContext<A>, next: PipeContext<A> -> Outcome<E>): (r: StageResult<A, E>)
    ensures |r.calls| == 1 && r.calls[0].Next?
    ensures r.outcome == next(r.calls[0].context)
    ensures r.calls[0].context.retryInformation == ctx.retryInformation
    ensures r.calls[0].context.messageId == ctx.messageId
    ensures ctx.messageContext.Correlation? ==>
      r.calls[0].context.messageContext == Correlation(
        CorrelationContext(ctx.retryInformation.numberOfRetries, ctx.messageContext.context.application))
    ensures !ctx.messageContext.Correlation? ==> r.calls[0].context == ctx
  {
    var updated :=
      match ctx.messageContext
      case Correlation(c) => ctx.(messageContext := Correlation(c.(retries := ctx.retryInformation.numberOfRetries)))
      case _ => ctx;
    StageResult([Next(updated)], next(updated))
  }

  /** The context the stage hands to the next stage. */
  function Forwarded<A, E>(ctx: PipeContext<A>, next: PipeContext<A> -> Outcome<E>): PipeContext<A> {
    RetryStage(ctx, next).calls[0].context
  }

  /** The live delivery's retry count wins over whatever count was serialised
      with the message: two contexts that differ only in `Retries` are
      forwarded identically. */
  lemma RetryCountFromDeliveryWins<A, E>(ctx: PipeContext<A>, n: int, next: PipeContext<A> -> Outcome<E>)
    requires ctx.messageContext.Correlation?
    ensures var other := ctx.(messageContext := Correlation(ctx.messageContext.context.(retries := n)));
      Forwarded(other, next) == Forwarded(ctx, next)
    ensures Forwarded(ctx, next).messageContext.context.retries == ctx.retryInformation.numberOfRetries
  {
  }

  /** Running the stage on the context it forwards forwards it unchanged. */
  lemma RetryStageIdempotent<A, E>(ctx: PipeContext<A>, next: PipeContext<A> -> Outcome<E>)
    ensures Forwarded(Forwarded(ctx, next), next) == Forwarded(ctx, next)
  {
  }
}
