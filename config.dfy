/** Configuration of a publisher or subscriber and the queue-name generators
    that map a topic to a STOMP destination. */
module Configuration {
  import opened Base
  import opened Marshaling

  datatype ConnectionConfig = ConnectionConfig(network: string, addr: string)

  /** QueueConfig: the generator is applied to the topic given to Subscribe. */
  datatype QueueConfig = QueueConfig(generateName: string -> string)

  datatype Config = Config(connection: ConnectionConfig, marshaler: Marshaler, queue: QueueConfig) {

    /** Validation checks nothing: every configuration is accepted. */
    function Validate(): (err: Option<Error>)
      ensures err == None
    {
      None
    }

    function ValidatePublisher(): (err: Option<Error>)
      ensures err == None
    {
      Validate()
    }

    function ValidateSubscriber(): (err: Option<Error>)
      ensures err == None
    {
      Validate()
    }
  }

  /** The queue name is the topic itself. */
  function GenerateQueueNameTopicName(topic: string): (queueName: string)
    ensures queueName == topic
  {
    topic
  }

  /** A generator that ignores the topic and always names the same queue. */
  function GenerateQueueNameConstant(queueName: string): (generate: string -> string)
    ensures forall topic :: generate(topic) == queueName
  {
    topic => queueName
  }

  /** A generator that names the queue topic + "_" + suffix. */
  function GenerateQueueNameTopicNameWithSuffix(suffix: string): (generate: string -> string)
    ensures forall topic :: |generate(topic)| == |topic| + 1 + |suffix|
    ensures forall topic :: generate(topic)[..|topic|] == topic
    ensures forall topic :: generate(topic)[|topic|] == '_'
    ensures forall topic :: generate(topic)[|topic| + 1..] == suffix
  {
    topic => topic + "_" + suffix
  }

  /** Two topics get the same constant queue name. */
  lemma ConstantIgnoresTopic(queueName: string, topic1: string, topic2: string)
    ensures GenerateQueueNameConstant(queueName)(topic1) == GenerateQueueNameConstant(queueName)(topic2) == queueName
  {
  }

  /** For a fixed suffix, distinct topics get distinct queue names. */
  lemma SuffixGeneratorInjective(suffix: string, topic1: string, topic2: string)
    requires GenerateQueueNameTopicNameWithSuffix(suffix)(topic1) == GenerateQueueNameTopicNameWithSuffix(suffix)(topic2)
    ensures topic1 == topic2
  {
    var generate := GenerateQueueNameTopicNameWithSuffix(suffix);
    assert |topic1| == |topic2|;
    assert topic1 == generate(topic1)[..|topic1|] == generate(topic2)[..|topic2|] == topic2;
  }
}
