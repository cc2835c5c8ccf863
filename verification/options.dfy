/**
 The part of `RabbitMqOptions` the modelled logic reads. Connection, SSL,
 timeout and exchange settings play no part in it and are not represented.
 */
module Options {
  import opened Wrappers

  /** `RabbitMqOptions.ContextOptions`, reduced to the `Header` the context
      provider reads. */
  datatype ContextOptions = ContextOptions(header: Option<string>)

  /** `RabbitMqOptions.MessageProcessorOptions`, reduced to the settings
      processor selection reads; `processorType` is its `Type`. */
  datatype MessageProcessorOptions = MessageProcessorOptions(enabled: bool, processorType: Option<string>)

  /** The options record; `defaultNamespace` is the `Namespace` setting handed
      to the naming conventions. Every reference-typed setting may be null. */
  datatype RabbitMqOptions = RabbitMqOptions(
    defaultNamespace: Option<string>,
    context: Option<ContextOptions>,
    messageProcessor: Option<MessageProcessorOptions>)

  /** `options.MessageProcessor?.Enabled == true`. */
  predicate ProcessorEnabled(options: RabbitMqOptions) {
    options.messageProcessor.Some? && options.messageProcessor.value.enabled
  }
}
