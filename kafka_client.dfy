/** The topic-provisioning client of the post-processing Lambda: one
    CreateTopics probe against one broker (`createKafkaTopic`) and the sweep
    over brokers and topics that discovers the controller (`createTopic`).
    The broker connection and the CreateTopics round trip are an oracle. */
module KafkaClient {
  import opened Results
  import opened Strings

  /** Kafka protocol error codes the client reacts to (the "Error Codes" table
      of the Apache Kafka protocol guide, as carried in a CreateTopics response). */
  const NOT_CONTROLLER := 41
  const TOPIC_ALREADY_EXISTS := 36
  const SUCCESS := 0

  /** `time.Second * 15`, a Go `time.Duration` in nanoseconds. */
  const CREATE_TOPICS_TIMEOUT_NS := 15 * 1_000_000_000

  const TWO_TO_THE_32 := 0x1_0000_0000
  const TWO_TO_THE_16 := 0x1_0000

  /** `kafkaTopicConfig`: counts are Go `int`s. */
  datatype TopicConfig = TopicConfig(name: string, replicationFactor: int, numOfPartitions: int)

  /** `sarama.TopicDetail`: the counts are `int32` and `int16` in the wire format. */
  datatype TopicDetail = TopicDetail(numPartitions: int, replicationFactor: int, configEntries: map<string, string>)

  /** `sarama.CreateTopicsRequest`. */
  datatype CreateTopicsRequest = CreateTopicsRequest(timeoutNs: int, topicDetails: map<string, TopicDetail>)

  /** Outcome of `broker.Open` followed by `broker.Connected`. */
  datatype DialResult = Dialled | OpenFailed | ConnectFailed

  /** Outcome of `broker.CreateTopics`: a transport error, or the response's
      TopicErrors codes in the order the Go runtime iterates that map. */
  datatype SendResult = SendFailed | TopicErrors(codes: seq<int>)

  /** The network as the client sees it. */
  datatype Network = Network(dial: string -> DialResult, send: (string, CreateTopicsRequest) -> SendResult)

  /** The errors `createKafkaTopic` returns. */
  datatype KafkaError =
    | BrokerOpenFailed
    | BrokerNotConnected
    | EmptyTopicName
    | CreateTopicsFailed(topic: string)
    | TopicErrorCode(code: int)

  /** What one `createKafkaTopic` call means for the search: the broker
      accepted (created, or already exists), it did not, or the run fails. */
  datatype ProbeOutcome = Confirmed | Unconfirmed | Failed(error: KafkaError)

  /** One `createKafkaTopic` call: the broker, the topic, and the CreateTopics
      request actually sent (None when none was). */
  datatype Attempt = Attempt(broker: string, topic: TopicConfig, request: Option<CreateTopicsRequest>)

  /** The state a sweep ends in: the controller (`""` while unknown), the
      attempts it made in order, and the error it returns, if any. */
  datatype Run = Run(controller: string, attempts: seq<Attempt>, error: Option<KafkaError>)

  /** Go's `int32(x)`: keep the low 32 bits, read them as two's complement. */
  function ToInt32(x: int): (r: int)
    ensures -TWO_TO_THE_32 / 2 <= r < TWO_TO_THE_32 / 2
    ensures (x - r) % TWO_TO_THE_32 == 0
    ensures -TWO_TO_THE_32 / 2 <= x < TWO_TO_THE_32 / 2 ==> r == x
  {
    var low := x % TWO_TO_THE_32;
    if low >= TWO_TO_THE_32 / 2 then low - TWO_TO_THE_32 else low
  }

  /** Go's `int16(x)`: keep the low 16 bits, read them as two's complement. */
  function ToInt16(x: int): (r: int)
    ensures -TWO_TO_THE_16 / 2 <= r < TWO_TO_THE_16 / 2
    ensures (x - r) % TWO_TO_THE_16 == 0
    ensures -TWO_TO_THE_16 / 2 <= x < TWO_TO_THE_16 / 2 ==> r == x
  {
    var low := x % TWO_TO_THE_16;
    if low >= TWO_TO_THE_16 / 2 then low - TWO_TO_THE_16 else low
  }

  /** The CreateTopics request built for one topic: exactly that topic, keyed
      by its name, with the counts narrowed as Go narrows them, no config
      entries and a 15 s timeout. */
  function BuildRequest(conf: TopicConfig): (req: CreateTopicsRequest)
    ensures req.topicDetails.Keys == {conf.name}
    ensures req.timeoutNs == 15_000_000_000
    ensures req.topicDetails[conf.name].configEntries == map[]
    ensures req.topicDetails[conf.name].numPartitions == ToInt32(conf.numOfPartitions)
    ensures req.topicDetails[conf.name].replicationFactor == ToInt16(conf.replicationFactor)
    ensures 0 <= conf.numOfPartitions < 0x8000_0000 ==> req.topicDetails[conf.name].numPartitions == conf.numOfPartitions
    ensures 0 <= conf.replicationFactor < 0x8000 ==> req.topicDetails[conf.name].replicationFactor == conf.replicationFactor
  {
    var detail := TopicDetail(ToInt32(conf.numOfPartitions), ToInt16(conf.replicationFactor), map[]);
    CreateTopicsRequest(CREATE_TOPICS_TIMEOUT_NS, map[conf.name := detail])
  }

  /** How the first TopicErrors code is read. */
  function Classify(code: int): (o: ProbeOutcome)
    ensures o == Unconfirmed <==> code == NOT_CONTROLLER
    ensures o == Confirmed <==> code == SUCCESS || code == TOPIC_ALREADY_EXISTS
    ensures o.Failed? ==> o.error == TopicErrorCode(code)
  {
    if code == NOT_CONTROLLER then Unconfirmed
    else if code == TOPIC_ALREADY_EXISTS then Confirmed
    else if code == SUCCESS then Confirmed
    else Failed(TopicErrorCode(code))
  }

  /** What one `createKafkaTopic(broker, conf)` call amounts to. The
      connection is opened before the topic name is checked. */
  function Probe(net: Network, broker: string, conf: TopicConfig): (o: ProbeOutcome)
    ensures var sent := net.dial(broker) == Dialled && conf.name != "";
            var reply := net.send(broker, BuildRequest(conf));
            o == Confirmed <==>
              sent && reply.TopicErrors? && |reply.codes| > 0
              && (reply.codes[0] == SUCCESS || reply.codes[0] == TOPIC_ALREADY_EXISTS)
    ensures var sent := net.dial(broker) == Dialled && conf.name != "";
            var reply := net.send(broker, BuildRequest(conf));
            o == Unconfirmed <==>
              sent && reply.TopicErrors? && (|reply.codes| == 0 || reply.codes[0] == NOT_CONTROLLER)
  {
    match net.dial(broker)
    case OpenFailed => Failed(BrokerOpenFailed)
    case ConnectFailed => Failed(BrokerNotConnected)
    case Dialled =>
      if conf.name == "" then Failed(EmptyTopicName)
      else
        match net.send(broker, BuildRequest(conf))
        case SendFailed => Failed(CreateTopicsFailed(conf.name))
        case TopicErrors(codes) =>
          if |codes| == 0 then Unconfirmed else Classify(codes[0])
  }

  /** The record of one `createKafkaTopic(broker, conf)` call. */
  function AttemptOn(net: Network, broker: string, conf: TopicConfig): (a: Attempt)
    ensures a.broker == broker && a.topic == conf
    ensures a.request.Some? <==> net.dial(broker) == Dialled && conf.name != ""
    ensures a.request.Some? ==> a.request.value == BuildRequest(conf)
    ensures a.request.None? ==> Probe(net, broker, conf).Failed?
  {
    var sent := net.dial(broker) == Dialled && conf.name != "";
    Attempt(broker, conf, if sent then Some(BuildRequest(conf)) else None)
  }

  function OutcomeOf(net: Network, a: Attempt): ProbeOutcome
  {
    Probe(net, a.broker, a.topic)
  }

  /** `made` happened before `r`. */
  function Preceded(made: seq<Attempt>, r: Run): Run
  {
    Run(r.controller, made + r.attempts, r.error)
  }

  /** The inner loop of `createTopic`: every topic, in order, against one
      broker, stopping at the first error; an accepting broker becomes the
      controller. */
  function TopicSweep(net: Network, broker: string, topics: seq<TopicConfig>, controller: string): Run
    decreases |topics|
  {
    if |topics| == 0 then Run(controller, [], None)
    else
      var a := AttemptOn(net, broker, topics[0]);
      match Probe(net, broker, topics[0])
      case Failed(e) => Run(controller, [a], Some(e))
      case Confirmed => Preceded([a], TopicSweep(net, broker, topics[1..], broker))
      case Unconfirmed => Preceded([a], TopicSweep(net, broker, topics[1..], controller))
  }

  /** The outer loop of `createTopic`: once a controller is known every other
      broker is skipped; the first error ends the run. */
  function BrokerSweep(net: Network, brokers: seq<string>, topics: seq<TopicConfig>, controller: string): Run
    decreases |brokers|
  {
    if |brokers| == 0 then Run(controller, [], None)
    else if controller != "" && brokers[0] != controller then
      BrokerSweep(net, brokers[1..], topics, controller)
    else
      var r := TopicSweep(net, brokers[0], topics, controller);
      if r.error.Some? then r
      else Preceded(r.attempts, BrokerSweep(net, brokers[1..], topics, r.controller))
  }

  lemma AppendAssociates(a: seq<Attempt>, b: seq<Attempt>, c: seq<Attempt>)
    ensures a + (b + c) == (a + b) + c
  {
  }

  lemma PrecededTwice(m1: seq<Attempt>, m2: seq<Attempt>, r: Run)
    ensures Preceded(m1, Preceded(m2, r)) == Preceded(m1 + m2, r)
  {
    assert m1 + (m2 + r.attempts) == (m1 + m2) + r.attempts;
  }

  /** One iteration of the inner loop, on the topics from `j` on. */
  lemma TopicSweepStep(net: Network, broker: string, topics: seq<TopicConfig>, j: nat, controller: string)
    requires j < |topics|
    ensures var o := Probe(net, broker, topics[j]);
            var a := AttemptOn(net, broker, topics[j]);
            TopicSweep(net, broker, topics[j..], controller)
            == if o.Failed? then Run(controller, [a], Some(o.error))
               else Preceded([a], TopicSweep(net, broker, topics[j + 1..], if o == Confirmed then broker else controller))
  {
    assert topics[j..][0] == topics[j] && topics[j..][1..] == topics[j + 1..];
  }

  /** One iteration of the outer loop, on the brokers from `i` on. */
  lemma BrokerSweepStep(net: Network, brokers: seq<string>, topics: seq<TopicConfig>, i: nat, controller: string)
    requires i < |brokers|
    ensures BrokerSweep(net, brokers[i..], topics, controller)
            == if controller != "" && brokers[i] != controller then BrokerSweep(net, brokers[i + 1..], topics, controller)
               else
                 var r := TopicSweep(net, brokers[i], topics, controller);
                 if r.error.Some? then r else Preceded(r.attempts, BrokerSweep(net, brokers[i + 1..], topics, r.controller))
  {
    assert brokers[i..][0] == brokers[i] && brokers[i..][1..] == brokers[i + 1..];
  }

  /** The `Kafka` client: the comma-joined broker string, the topics to
      create, and the controller found so far (`""` while unknown). `log`
      records every `createKafkaTopic` call. */
  class Kafka {
    var brokerConn: string
    var topics: seq<TopicConfig>
    var brokerController: string
    ghost var log: seq<Attempt>

    constructor (brokerConn: string, topics: seq<TopicConfig>)
      ensures this.brokerConn == brokerConn && this.topics == topics
      ensures brokerController == "" && log == []
    {
      this.brokerConn := brokerConn;
      this.topics := topics;
      brokerController := "";
      log := [];
    }

    /** `createKafkaTopic`: open a connection, build the request, send it and
        read the first TopicErrors entry. */
    method CreateKafkaTopic(net: Network, broker: string, conf: TopicConfig) returns (err: Option<KafkaError>)
      modifies this`brokerController, this`log
      ensures log == old(log) + [AttemptOn(net, broker, conf)]
      ensures Probe(net, broker, conf).Failed? ==>
                err == Some(Probe(net, broker, conf).error) && brokerController == old(brokerController)
      ensures Probe(net, broker, conf) == Confirmed ==> err == None && brokerController == broker
      ensures Probe(net, broker, conf) == Unconfirmed ==> err == None && brokerController == old(brokerController)
    {
      var dialled := net.dial(broker);
      if dialled == OpenFailed {
        log := log + [Attempt(broker, conf, None)];
        return Some(BrokerOpenFailed);
      }
      if dialled == ConnectFailed {
        log := log + [Attempt(broker, conf, None)];
        return Some(BrokerNotConnected);
      }
      if conf.name == "" {
        log := log + [Attempt(broker, conf, None)];
        return Some(EmptyTopicName);
      }
      var request := BuildRequest(conf);
      log := log + [Attempt(broker, conf, Some(request))];
      var response := net.send(broker, request);
      if response == SendFailed {
        return Some(CreateTopicsFailed(conf.name));
      }
      // Every branch of the source's loop over the TopicErrors map returns,
      // so only the first entry the runtime yields is ever read.
      var codes := response.codes;
      if |codes| > 0 {
        var code := codes[0];
        if code == NOT_CONTROLLER {
          return None;
        } else if code == TOPIC_ALREADY_EXISTS {
          brokerController := broker;
          return None;
        } else if code == SUCCESS {
          brokerController := broker;
          return None;
        } else {
          return Some(TopicErrorCode(code));
        }
      }
      return None;
    }

    /** The inner loop of `createTopic`: every topic, in order, against
        `broker`, returning the first error. */
    method TryTopicsOn(net: Network, broker: string) returns (err: Option<KafkaError>)
      modifies this`brokerController, this`log
      ensures var run := TopicSweep(net, broker, topics, old(brokerController));
              brokerController == run.controller && log == old(log) + run.attempts && err == run.error
    {
      ghost var whole := TopicSweep(net, broker, topics, brokerController);
      ghost var made: seq<Attempt> := [];
      var j := 0;
      while j < |topics|
        invariant 0 <= j <= |topics|
        invariant log == old(log) + made
        invariant whole == Preceded(made, TopicSweep(net, broker, topics[j..], brokerController))
      {
        TopicSweepStep(net, broker, topics, j, brokerController);
        var e;
        ghost var logBefore := log;
        if brokerController != "" && broker == brokerController {
          e := CreateKafkaTopic(net, brokerController, topics[j]);
        } else {
          e := CreateKafkaTopic(net, broker, topics[j]);
        }
        assert log == logBefore + [AttemptOn(net, broker, topics[j])];
        PrecededTwice(made, [AttemptOn(net, broker, topics[j])], TopicSweep(net, broker, topics[j + 1..], brokerController));
        AppendAssociates(old(log), made, [AttemptOn(net, broker, topics[j])]);
        made := made + [AttemptOn(net, broker, topics[j])];
        if e.Some? {
          return e;
        }
        j := j + 1;
      }
      assert topics[j..] == [];
      return None;
    }

    /** `createTopic`: walk the brokers in order, skipping every broker but
        the controller once one is known, and return the first error. */
    method CreateTopic(net: Network) returns (err: Option<KafkaError>)
      modifies this`brokerController, this`log
      ensures var run := BrokerSweep(net, Split(brokerConn, ','), topics, old(brokerController));
              brokerController == run.controller && log == old(log) + run.attempts && err == run.error
    {
      var brokers := Split(brokerConn, ',');
      ghost var whole := BrokerSweep(net, brokers, topics, brokerController);
      ghost var made: seq<Attempt> := [];
      var i := 0;
      while i < |brokers|
        invariant 0 <= i <= |brokers|
        invariant log == old(log) + made
        invariant whole == Preceded(made, BrokerSweep(net, brokers[i..], topics, brokerController))
      {
        var broker := brokers[i];
        BrokerSweepStep(net, brokers, topics, i, brokerController);
        if brokerController != "" && broker != brokerController {
          // a controller is known and this is not it
        } else {
          ghost var here := TopicSweep(net, broker, topics, brokerController);
          ghost var logBefore := log;
          var e := TryTopicsOn(net, broker);
          if e.Some? {
            AppendAssociates(old(log), made, here.attempts);
            return e;
          }
          PrecededTwice(made, here.attempts, BrokerSweep(net, brokers[i + 1..], topics, brokerController));
          AppendAssociates(old(log), made, here.attempts);
          made := made + here.attempts;
        }
        i := i + 1;
      }
      assert brokers[i..] == [];
      return None;
    }
  }
}
