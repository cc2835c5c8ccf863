/**
 Unique-message processing: which `IMessageProcessor` the options select,
 which pipe plugins are registered, and `ProcessUniqueMessagesMiddleware`,
 the gate that claims a message id before the handler runs and releases the
 claim when the handler throws.

 The in-memory and Redis processors are abstracted to what the gate relies on:
 a store of claimed ids with set-if-absent (`TryProcessAsync`) and delete
 (`RemoveAsync`). Expiry, concurrency and the store's location are not
 modelled; deliveries are handled one after another.
 */
module Processing {
  import opened Wrappers
  import opened Text
  import opened Options
  import opened Pipe

  datatype MessageProcessor = EmptyMessageProcessor | InMemoryMessageProcessor | RedisMessageProcessor {
    /** The in-memory and Redis processors remember claims; the empty one does not. */
    predicate Remembers() {
      !EmptyMessageProcessor?
    }
  }

  /** A configured processor type that `ToLowerInvariant()` turns into "redis". */
  predicate IsRedisType(processorType: Option<string>) {
    processorType.Some? && Lower(processorType.value) == "redis"
  }

  /** The processor `AddRabbitMq` registers: the empty processor unless the
      message processor options are present and enabled; then Redis for the
      type "redis" in any case, and in-memory for any other type, null
      included. */
  function SelectMessageProcessor(options: RabbitMqOptions): (p: MessageProcessor)
    ensures p.EmptyMessageProcessor? <==> !ProcessorEnabled(options)
    ensures p.RedisMessageProcessor? <==>
      ProcessorEnabled(options) && IsRedisType(options.messageProcessor.value.processorType)
    ensures p.InMemoryMessageProcessor? <==>
      ProcessorEnabled(options) && !IsRedisType(options.messageProcessor.value.processorType)
  {
    if !ProcessorEnabled(options) then EmptyMessageProcessor
    else if IsRedisType(options.messageProcessor.value.processorType) then RedisMessageProcessor
    else InMemoryMessageProcessor
  }

  /** Redis is selected exactly for an enabled processor whose type spells
      "redis" in any mix of upper and lower case. */
  lemma RedisSelectedForAnyCasing(options: RabbitMqOptions)
    ensures SelectMessageProcessor(options).RedisMessageProcessor? <==>
      && ProcessorEnabled(options)
      && var t := options.messageProcessor.value.processorType;
      && t.Some? && |t.value| == 5
      && EitherCase(t.value[0], 'r') && EitherCase(t.value[1], 'e') && EitherCase(t.value[2], 'd')
      && EitherCase(t.value[3], 'i') && EitherCase(t.value[4], 's')
  {
    if ProcessorEnabled(options) && options.messageProcessor.value.processorType.Some? {
      LowerIsRedis(options.messageProcessor.value.processorType.value);
    }
  }

  /** The pipe plugins `ConfigureBus` registers, in order. */
  datatype Plugin = AttributeRouting | RetryLater | UpdateRetryInfo | MessageContext | ContextForwarding
                  | ProcessUniqueMessages

  /** The plugins every bus uses, before the optional unique-messages stage. */
  const BasePlugins: seq<Plugin> := [AttributeRouting, RetryLater, UpdateRetryInfo, MessageContext, ContextForwarding]

  /** `ConfigureBus`'s plugin list: the fixed chain, then the unique-messages
      stage, only when the message processor is enabled. */
  function RegisteredPlugins(options: RabbitMqOptions): (r: seq<Plugin>)
    ensures |r| >= |BasePlugins| && r[..|BasePlugins|] == BasePlugins
    ensures ProcessUniqueMessages in r <==> ProcessorEnabled(options)
    ensures ProcessUniqueMessages in r ==> r == BasePlugins + [ProcessUniqueMessages]
    ensures ProcessUniqueMessages !in r ==> r == BasePlugins
  {
    BasePlugins + if ProcessorEnabled(options) then [ProcessUniqueMessages] else []
  }

  /** The unique-messages stage is in the pipe exactly when the selected
      processor remembers claims; with the empty processor no gate runs. */
  lemma GateRegisteredIffProcessorRemembers(options: RabbitMqOptions)
    ensures ProcessUniqueMessages in RegisteredPlugins(options) <==> SelectMessageProcessor(options).Remembers()
  {
  }

  /** The answer of `TryProcessAsync` and the claimed ids afterwards. */
  datatype Claim = Claim(granted: bool, store: set<string>)

  /** `TryProcessAsync(id)`: the empty processor always grants and keeps
      nothing; the others grant exactly when `id` is unclaimed, and `id` is
      claimed afterwards either way. */
  function TryProcessAsync(p: MessageProcessor, store: set<string>, id: string): (c: Claim)
    ensures !p.Remembers() ==> c.granted && c.store == store
    ensures p.Remembers() ==> (c.granted <==> id !in store) && c.store == store + {id}
  {
    if !p.Remembers() then Claim(true, store)
    else if id in store then Claim(false, store)
    else Claim(true, store + {id})
  }

  /** `RemoveAsync(id)`: the empty processor does nothing; the others forget
      `id` and only `id`. */
  function RemoveAsync(p: MessageProcessor, store: set<string>, id: string): (s: set<string>)
    ensures !p.Remembers() ==> s == store
    ensures p.Remembers() ==> id !in s && s + {id} == store + {id}
  {
    if p.Remembers() then store - {id} else store
  }

  /** Once released, an id can be claimed again. */
  lemma ClaimAfterRemoveGranted(p: MessageProcessor, store: set<string>, id: string)
    ensures TryProcessAsync(p, RemoveAsync(p, store, id), id).granted
  {
  }

  /** Of two claims of the same id in a row on a remembering processor, at
      most one is granted. */
  lemma SecondClaimRefused(p: MessageProcessor, store: set<string>, id: string)
    requires p.Remembers()
    ensures !TryProcessAsync(p, TryProcessAsync(p, store, id).store, id).granted
  {
  }

  /** The gate's calls, how it ended, and the claimed ids afterwards. */
  datatype GateResult<A, E> = GateResult(calls: seq<Call<A>>, outcome: Outcome<E>, store: set<string>) {
    /** Whether the gate got past the claim and called the next stage. */
    predicate HandlerRan() {
      |calls| > 1
    }
  }

  /** `ProcessUniqueMessagesMiddleware.InvokeAsync` for one delivery. */
  function Gate<A, E>(p: MessageProcessor, store: set<string>, ctx: PipeContext<A>,
                      next: PipeContext<A> -> Outcome<E>): (r: GateResult<A, E>)
    // the claim comes first, always
    ensures |r.calls| >= 1 && r.calls[0] == TryProcess(ctx.messageId)
    // the handler runs exactly when the claim is granted
    ensures Next(ctx) in r.calls <==> !p.Remembers() || ctx.messageId !in store
    ensures r.HandlerRan() <==> Next(ctx) in r.calls
    // refused: nothing else happens and the gate ends normally
    ensures Next(ctx) !in r.calls ==>
      r.calls == [TryProcess(ctx.messageId)] && r.outcome.Completed? && r.store == store
    // granted and the handler completes: the claim stays, nothing is removed
    ensures Next(ctx) in r.calls && next(ctx).Completed? ==>
      && r.calls == [TryProcess(ctx.messageId), Next(ctx)]
      && r.outcome.Completed?
      && (p.Remembers() ==> ctx.messageId in r.store && r.store == store + {ctx.messageId})
    // granted and the handler throws: the claim is removed, then the same error surfaces
    ensures Next(ctx) in r.calls && next(ctx).Faulted? ==>
      && r.calls == [TryProcess(ctx.messageId), Next(ctx), Remove(ctx.messageId)]
      && r.outcome == next(ctx)
      && (p.Remembers() ==> ctx.messageId !in r.store && r.store == store - {ctx.messageId})
    // the empty processor keeps no claims
    ensures !p.Remembers() ==> r.store == store
    // no other id is ever claimed or released
    ensures forall x :: x != ctx.messageId ==> (x in r.store <==> x in store)
  {
    var id := ctx.messageId;
    var claim := TryProcessAsync(p, store, id);
    if !claim.granted then
      GateResult([TryProcess(id)], Completed, claim.store)
    else
      match next(ctx)
      case Completed => GateResult([TryProcess(id), Next(ctx)], Completed, claim.store)
      case Faulted(e) => GateResult([TryProcess(id), Next(ctx), Remove(id)], Faulted(e), RemoveAsync(p, claim.store, id))
  }

  /** On a remembering processor the gate never forgets a claimed id. */
  lemma GateKeepsClaims<A, E>(p: MessageProcessor, store: set<string>, ctx: PipeContext<A>,
                              next: PipeContext<A> -> Outcome<E>)
    requires p.Remembers()
    ensures store <= Gate(p, store, ctx, next).store
  {
  }

  /** One delivery: its pipe context and how the handler behind the gate ends. */
  datatype Delivery<A, E> = Delivery(context: PipeContext<A>, handled: Outcome<E>)

  /** The outcome the next stage reports for a delivery. */
  function NextOf<A, E>(d: Delivery<A, E>): PipeContext<A> -> Outcome<E> {
    _ => d.handled
  }

  /** For each delivery, whether its handler ran, and the claimed ids at the end. */
  datatype Replayed = Replayed(ran: seq<bool>, store: set<string>)

  /** The gate applied to a stream of deliveries, one after another, each
      seeing the claims the previous ones left. */
  function Replay<A, E>(p: MessageProcessor, store: set<string>, ds: seq<Delivery<A, E>>): (r: Replayed)
    ensures |r.ran| == |ds|
    decreases |ds|
  {
    if ds == [] then Replayed([], store)
    else
      var g := Gate(p, store, ds[0].context, NextOf(ds[0]));
      var rest := Replay(p, g.store, ds[1..]);
      Replayed([g.HandlerRan()] + rest.ran, rest.store)
  }

  /** The ids whose handler ran and completed during a replay. */
  ghost function CompletedIds<A, E>(ds: seq<Delivery<A, E>>, ran: seq<bool>): set<string>
    requires |ran| == |ds|
  {
    set k | 0 <= k < |ds| && ran[k] && ds[k].handled.Completed? :: ds[k].context.messageId
  }

  /** After a replay on a remembering processor the claimed ids are the
      initial ones plus exactly those whose handler ran and completed: a
      failed run leaves no claim behind. The empty processor claims nothing. */
  lemma {:induction false} ReplayStore<A, E>(p: MessageProcessor, store: set<string>, ds: seq<Delivery<A, E>>)
    ensures var r := Replay(p, store, ds);
      p.Remembers() ==> r.store == store + CompletedIds(ds, r.ran)
    ensures !p.Remembers() ==> Replay(p, store, ds).store == store
    decreases |ds|
  {
    var r := Replay(p, store, ds);
    if ds == [] {
      assert CompletedIds(ds, r.ran) == {};
    } else {
      var g := Gate(p, store, ds[0].context, NextOf(ds[0]));
      var rest := Replay(p, g.store, ds[1..]);
      ReplayStore(p, g.store, ds[1..]);
      assert r.ran == [g.HandlerRan()] + rest.ran;
      var head: set<string> := if g.HandlerRan() && ds[0].handled.Completed? then {ds[0].context.messageId} else {};
      assert CompletedIds(ds, r.ran) == head + CompletedIds(ds[1..], rest.ran) by {
        forall x | x in CompletedIds(ds, r.ran)
          ensures x in head + CompletedIds(ds[1..], rest.ran)
        {
          var k :| 0 <= k < |ds| && r.ran[k] && ds[k].handled.Completed? && ds[k].context.messageId == x;
          if k > 0 {
            assert rest.ran[k - 1] && ds[1..][k - 1] == ds[k];
          }
        }
        forall x | x in CompletedIds(ds[1..], rest.ran)
          ensures x in CompletedIds(ds, r.ran)
        {
          var k :| 0 <= k < |ds| - 1 && rest.ran[k] && ds[1..][k].handled.Completed? && ds[1..][k].context.messageId == x;
          assert r.ran[k + 1] && ds[k + 1] == ds[1..][k];
        }
      }
      if p.Remembers() {
        assert g.store == store + head;
      }
    }
  }

  /** The gate backed by the empty processor, taken in isolation, lets every
      delivery's handler run, repeated ids included. In a configured pipe the
      empty processor is never behind a gate: see `Deliver`. */
  lemma {:induction false} EmptyProcessorRunsEveryDelivery<A, E>(store: set<string>, ds: seq<Delivery<A, E>>)
    ensures forall k :: 0 <= k < |ds| ==> Replay(EmptyMessageProcessor, store, ds).ran[k]
  {
    if ds != [] {
      var g := Gate(EmptyMessageProcessor, store, ds[0].context, NextOf(ds[0]));
      EmptyProcessorRunsEveryDelivery(g.store, ds[1..]);
    }
  }

  /** A delivery whose id is already claimed never reaches its handler. */
  lemma {:induction false} ClaimedIdNeverRuns<A, E>(p: MessageProcessor, store: set<string>,
                                                    ds: seq<Delivery<A, E>>, j: nat)
    requires p.Remembers() && j < |ds| && ds[j].context.messageId in store
    ensures !Replay(p, store, ds).ran[j]
    decreases j
  {
    var g := Gate(p, store, ds[0].context, NextOf(ds[0]));
    if j > 0 {
      GateKeepsClaims(p, store, ds[0].context, NextOf(ds[0]));
      ClaimedIdNeverRuns(p, g.store, ds[1..], j - 1);
    }
  }

  /** Once a handler has completed for an id, no later delivery of that id
      runs its handler. */
  lemma {:induction false} CompletedIdNeverRunsAgain<A, E>(p: MessageProcessor, store: set<string>,
                                                           ds: seq<Delivery<A, E>>, i: nat, j: nat)
    requires p.Remembers() && i < j < |ds|
    requires ds[i].context.messageId == ds[j].context.messageId
    requires Replay(p, store, ds).ran[i] && ds[i].handled.Completed?
    ensures !Replay(p, store, ds).ran[j]
    decreases i
  {
    var g := Gate(p, store, ds[0].context, NextOf(ds[0]));
    if i == 0 {
      ClaimedIdNeverRuns(p, g.store, ds[1..], j - 1);
    } else {
      CompletedIdNeverRunsAgain(p, g.store, ds[1..], i - 1, j - 1);
    }
  }

  /** The first delivery of an unclaimed id runs its handler. */
  lemma {:induction false} FirstDeliveryOfUnclaimedIdRuns<A, E>(p: MessageProcessor, store: set<string>,
                                                                ds: seq<Delivery<A, E>>, j: nat)
    requires j < |ds| && ds[j].context.messageId !in store
    requires forall k :: 0 <= k < j ==> ds[k].context.messageId != ds[j].context.messageId
    ensures Replay(p, store, ds).ran[j]
    decreases j
  {
    var g := Gate(p, store, ds[0].context, NextOf(ds[0]));
    if j > 0 {
      assert ds[j].context.messageId != ds[0].context.messageId;
      FirstDeliveryOfUnclaimedIdRuns(p, g.store, ds[1..], j - 1);
    }
  }

  /** After a handler throws, the next delivery of the same id runs its
      handler again: the failed attempt's claim was released. */
  lemma {:induction false} FailedIdRunsOnRedelivery<A, E>(p: MessageProcessor, store: set<string>,
                                                          ds: seq<Delivery<A, E>>, i: nat, j: nat)
    requires i < j < |ds|
    requires ds[i].context.messageId == ds[j].context.messageId
    requires Replay(p, store, ds).ran[i] && ds[i].handled.Faulted?
    requires forall k :: i < k < j ==> ds[k].context.messageId != ds[j].context.messageId
    ensures Replay(p, store, ds).ran[j]
    decreases i
  {
    var g := Gate(p, store, ds[0].context, NextOf(ds[0]));
    if !p.Remembers() {
      EmptyProcessorRunsEveryDelivery(store, ds);
    } else if i == 0 {
      FirstDeliveryOfUnclaimedIdRuns(p, g.store, ds[1..], j - 1);
    } else {
      FailedIdRunsOnRedelivery(p, g.store, ds[1..], i - 1, j - 1);
    }
  }

  /** Deliveries through the pipe the options configure: through the gate
      backed by the selected processor when the unique-messages stage is
      registered, and straight to the handler otherwise. */
  function Deliver<A, E>(options: RabbitMqOptions, store: set<string>, ds: seq<Delivery<A, E>>): (r: Replayed)
    ensures |r.ran| == |ds|
    ensures !ProcessorEnabled(options) ==> r.store == store && forall k :: 0 <= k < |ds| ==> r.ran[k]
    ensures ProcessorEnabled(options) ==> r == Replay(SelectMessageProcessor(options), store, ds)
  {
    if ProcessUniqueMessages in RegisteredPlugins(options) then Replay(SelectMessageProcessor(options), store, ds)
    else Replayed(seq(|ds|, _ => true), store)
  }

  /** With deduplication enabled, a configured pipe runs each handler for an
      id at most once until it fails: once a delivery of an id completes, no
      later delivery of it reaches the handler. */
  lemma DeliverCompletedIdNeverRunsAgain<A, E>(options: RabbitMqOptions, store: set<string>,
                                               ds: seq<Delivery<A, E>>, i: nat, j: nat)
    requires ProcessorEnabled(options) && i < j < |ds|
    requires ds[i].context.messageId == ds[j].context.messageId
    requires Deliver(options, store, ds).ran[i] && ds[i].handled.Completed?
    ensures !Deliver(options, store, ds).ran[j]
  {
    CompletedIdNeverRunsAgain(SelectMessageProcessor(options), store, ds, i, j);
  }
}
