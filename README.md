# MSK custom resources: topic provisioning and cluster pre-processing

This project is a Dafny model of the two Lambda-backed CloudFormation custom
resources that set up an Amazon MSK (managed Kafka) cluster.

- **Post-processing** (`custom_resources/msk/postprocesskafka/main.go`) creates
  the requested Kafka topics directly against the brokers. It does not know
  which broker is the controller, so it probes the brokers in order with
  CreateTopics requests. It reads the error code of the response:
  - 41, "not controller": keep searching;
  - 0, "success", or 36, "topic already exists": remember this broker as the
    controller;
  - anything else: abort.

  The handler also returns the broker list rewritten with an `SSL://` scheme,
  and the zookeeper hosts resolved to IP addresses.
- **Pre-processing** (`custom_resources/msk/preprocesskafka/main.go`) finds or
  creates the MSK cluster configuration. It also reads the VPC's CIDR block
  and the subnets routed through a NAT gateway, and returns them.

Modules:

- `Results`: the outcome types both handlers share. These are Go's
  `(value, error)` pairs, the three ways an AWS SDK call can answer, the
  CloudFormation request types, and the handler response.
- `Strings`: Go's `strings.Split`, `strings.Join` and `strings.ReplaceAll`
  (with an empty replacement), with their round-trip lemmas.
- `KafkaClient`: the `Kafka` client as a class. Its mutable `brokerController`
  field is updated in place, and a ghost `log` records every
  `createKafkaTopic` call. The broker connection is an oracle `Network`: `dial`
  gives the outcome of `Open` + `Connected`, and `send` gives a transport error
  or the TopicErrors codes of the CreateTopics response.
  - `CreateKafkaTopic` and the two nested loops of `createTopic` (`TryTopicsOn`
    and `CreateTopic`) are methods.
  - Each is proved to follow a specification function: `Probe`/`AttemptOn`,
    `TopicSweep` and `BrokerSweep`.
- `KafkaClientProofs`: what the controller search guarantees, proved about
  those specification functions:
  - the skip rule;
  - one attempt per topic in order;
  - the first error wins;
  - the controller is set once, and only to a broker that accepted;
  - the silent no-op sweep;
  - the search stops at the controller.
- `PostProcess`: the `createTopics` handler.
  - Its SSL broker-list loop and zookeeper resolution loops are methods proved
    against `BrokerListSsl` and `ResolvedZookeepers`.
  - Lemmas give the exact order the broker list is emitted in, and show that
    it is a permutation.
  - The DNS lookup is an oracle `lookup: string -> Resolution`.
- `PreProcess`: `listConfigurations`, `createConfig` and `vpcCidr` as pure
  functions over the AWS responses. The loops of `privSubnets` and
  `configureCluster` are methods, and `configureCluster` is the handler.

Both handlers take the AWS replies as inputs. The MSK, Route 53 and EC2 SDK
calls are values of type `AwsReply`, or functions returning one.

`createKafkaTopic` opens and checks the broker connection before it checks
the topic name (`custom_resources/msk/postprocesskafka/main.go:158-172`). So
`Probe` reports an open or connect failure ahead of an empty name.

## Model

| member | source | states |
|---|---|---|
| KafkaClient.ToInt32 | custom_resources/msk/postprocesskafka/main.go:175 | Go's `int32(n)`: the result is in the 32-bit signed range and congruent to n modulo 2^32, and equals n when n already fits |
| KafkaClient.ToInt16 | custom_resources/msk/postprocesskafka/main.go:176 | Go's `int16(r)`: the result is in the 16-bit signed range and congruent to r modulo 2^16, and equals r when r already fits |
| KafkaClient.Classify | custom_resources/msk/postprocesskafka/main.go:195-210 | code 41 is "keep searching" exactly when the code is 41; "accepted" exactly when the code is 0 or 36; any other code is an error carrying that code |
| KafkaClient.Kafka.CreateKafkaTopic | custom_resources/msk/postprocesskafka/main.go:143-215 | appends exactly one attempt to the log. Failure: returns the error and leaves the controller. Acceptance: returns nil and sets the controller to the probed broker. "Not controller" or an empty TopicErrors map: returns nil and leaves the controller |
| KafkaClient.Kafka.TryTopicsOn | custom_resources/msk/postprocesskafka/main.go:125-137 | the inner loop over the topics for one broker: the new controller, the attempts logged and the error returned are those of `TopicSweep` |
| KafkaClient.Kafka.CreateTopic | custom_resources/msk/postprocesskafka/main.go:116-141 | splits the broker string on commas and walks the brokers: the new controller, the attempts logged and the error returned are those of `BrokerSweep` from the old controller |
| KafkaClient.BuildRequest | custom_resources/msk/postprocesskafka/main.go:173-185 | the request has exactly one topic, keyed by its name, with the counts narrowed to int32/int16 (unchanged when in range), no config entries and a 15 s timeout |
| KafkaClient.Probe | custom_resources/msk/postprocesskafka/main.go:143-215 | a call is accepted exactly when the connection opens, the name is non-empty, the request is answered and the first TopicErrors code is 0 or 36. It means "keep searching" exactly when the request is answered with no code or a first code of 41. Every other case is an error |
| KafkaClient.AttemptOn | custom_resources/msk/postprocesskafka/main.go:158-188 | the attempt records the broker and the topic. A request is sent exactly when the connection opens and the name is non-empty, and it is the request built for the topic. A call that sends nothing is an error |
| KafkaClientProofs.ProbeClassification | custom_resources/msk/postprocesskafka/main.go:158-210 | errors come in the source's order: open failure, connect failure, empty name, transport error. Then an empty TopicErrors map is "keep searching", and otherwise the first code is classified (41 / 0 or 36 / anything else, each as an if-and-only-if) |
| KafkaClientProofs.EmptyNameSendsNothing | custom_resources/msk/postprocesskafka/main.go:170-172 | an empty topic name is an error, and no CreateTopics request is sent |
| KafkaClientProofs.TopicSweepAttempts | custom_resources/msk/postprocesskafka/main.go:125-137 | one broker gets at most one attempt per topic, in topic order. When no error is returned, every topic was attempted |
| KafkaClientProofs.TopicSweepStopsAtFailure | custom_resources/msk/postprocesskafka/main.go:125-137 | in one broker's topic loop, an attempt fails exactly when it is the last one and the loop returns an error, and that error is the attempt's |
| KafkaClientProofs.TopicSweepController | custom_resources/msk/postprocesskafka/main.go:125-137 | all attempts of the topic loop go to its broker. The controller afterwards is that broker if one of its attempts was accepted, and otherwise the controller it started with |
| KafkaClientProofs.FirstErrorWins | custom_resources/msk/postprocesskafka/main.go:116-141 | across the whole run, an attempt fails exactly when it is the last one and the run returns an error. The returned error is that attempt's error, so nothing is attempted after the first error |
| KafkaClientProofs.KnownControllerKept | custom_resources/msk/postprocesskafka/main.go:120-123 | once a controller is known, it never changes and every attempt goes to it (the skip rule) |
| KafkaClientProofs.SkippedWhenAbsent | custom_resources/msk/postprocesskafka/main.go:120-123 | a known controller that is not in the broker list means no attempt is made and no error is returned |
| KafkaClientProofs.ControllerOnlyFromAcceptance | custom_resources/msk/postprocesskafka/main.go:199-206 | when the run changes the controller, the new controller is a broker with an attempt that answered 0 or 36 |
| KafkaClientProofs.ControllerSetOnce | custom_resources/msk/postprocesskafka/main.go:116-141 | after the first accepted attempt on a named broker, every later attempt goes to that broker, and it is the final controller |
| KafkaClientProofs.TopicSweepAllDeclined | custom_resources/msk/postprocesskafka/main.go:197-198 | a broker that answers 41 to every topic gets one attempt per topic and leaves the controller unchanged |
| KafkaClientProofs.TopicSweepAllAccepted | custom_resources/msk/postprocesskafka/main.go:199-206 | a broker that accepts every topic gets one attempt per topic and becomes the controller |
| KafkaClientProofs.SilentSweep | custom_resources/msk/postprocesskafka/main.go:212-214 | when every answer is 41 or an empty TopicErrors map, every broker gets every topic, no controller is found and no error is returned |
| KafkaClientProofs.SearchStopsAtController | custom_resources/msk/postprocesskafka/main.go:116-141 | when one broker accepts every topic and every other broker answers 41, exactly the brokers up to and including it get every topic, none after it gets any, and it is the controller |
| PostProcess.FormatBrokerList | custom_resources/msk/postprocesskafka/main.go:248-256 | the prepend/append loop produces `BrokerListSsl`: the comma-join of the scheme-prefixed brokers in the order `SslOrder` gives |
| PostProcess.SslOrderShape | custom_resources/msk/postprocesskafka/main.go:248-256 | for brokers b0..b(n-1) the entries are `SSL://` b(n-2), ..., `SSL://` b0, then `SSL://` b(n-1): n entries in all |
| PostProcess.SslOrderPermutes | custom_resources/msk/postprocesskafka/main.go:248-256 | every broker appears exactly once with the scheme: the entries are a permutation of the prefixed input |
| PostProcess.BrokerListSslSplits | custom_resources/msk/postprocesskafka/main.go:248-256 | splitting the output on commas gives back exactly those entries, so there is no trailing or empty entry |
| PostProcess.SslSingleBroker | custom_resources/msk/postprocesskafka/main.go:248-256 | a single broker gives `SSL://` followed by the broker |
| PostProcess.SslThreeBrokers | custom_resources/msk/postprocesskafka/main.go:341-345 | three brokers b0, b1, b2 come out as b1, b0, b2, as in the sample response |
| PostProcess.ResolveZookeepers | custom_resources/msk/postprocesskafka/main.go:263-271 | the loops compute `ResolvedZookeepers`: strip `:2181`, split on commas, resolve each host, and comma-join the addresses |
| PostProcess.ResolvedAddressesAppend | custom_resources/msk/postprocesskafka/main.go:265-270 | addresses come out in host order |
| PostProcess.UnresolvedHostIgnored | custom_resources/msk/postprocesskafka/main.go:266 | a host whose lookup fails contributes nothing, and the other hosts' addresses are kept |
| PostProcess.ResolvedAddressesMembers | custom_resources/msk/postprocesskafka/main.go:265-270 | an address is in the list exactly when some host's lookup returned it |
| PostProcess.StripJoinedPorts | custom_resources/msk/postprocesskafka/main.go:264 | removing every `:2181` from a `host:2181,...` string leaves the comma-joined bare hosts |
| PostProcess.ZookeeperHostsRecovered | custom_resources/msk/postprocesskafka/main.go:264 | the hosts that are looked up are exactly the zookeeper hosts without the port, in order |
| PostProcess.PartialResolution | custom_resources/msk/postprocesskafka/main.go:263-271 | `z1:2181,z2:2181`, with only z1 resolving, gives z1's single address |
| PostProcess.ProvisionTopics | custom_resources/msk/postprocesskafka/main.go:217-324 | Delete gives an empty response. Create and Update fail on the hosted zone, then the broker string, then the zookeeper string, then the topic run. Otherwise the data holds `Brokers`, `Zookeepers` and `ZoneName` |
| PreProcess.ListConfigurations | custom_resources/msk/preprocesskafka/main.go:37-55 | a failed call is an error. Otherwise the result is the search over the returned configurations, and its only error names the configuration |
| PreProcess.FirstMatchFindsFirst | custom_resources/msk/preprocesskafka/main.go:44-54 | the search succeeds exactly when some configuration has the name and latest revision 1. It returns the ARN of the first such configuration; otherwise the error names the configuration |
| PreProcess.CreateConfig | custom_resources/msk/preprocesskafka/main.go:58-84 | a created configuration gives its ARN. A ConflictException gives the `listConfigurations` result. Any other error gives an error |
| PreProcess.CreateConfigAfterConflict | custom_resources/msk/preprocesskafka/main.go:67-83 | creating a configuration that exists (a ConflictException) succeeds with the ARN of the first listed configuration that has the name and revision 1 |
| PreProcess.VpcCidr | custom_resources/msk/preprocesskafka/main.go:88-105 | only the first VPC is inspected: a matching id gives its CIDR, a mismatch is an error, and an empty list gives "" with no error. A failed call is an error |
| PreProcess.VpcCidrIgnoresLaterVpcs | custom_resources/msk/preprocesskafka/main.go:96-104 | the result depends only on the first VPC, so a mismatch there fails even if a later VPC matches |
| PreProcess.PrivSubnets | custom_resources/msk/preprocesskafka/main.go:110-144 | a failed call is an error. Otherwise the nested loops return `SubnetIds` of the route tables |
| PreProcess.SubnetIdsAppend | custom_resources/msk/preprocesskafka/main.go:136-141 | the ids come table by table, in table order |
| PreProcess.SubnetIdsCount | custom_resources/msk/preprocesskafka/main.go:136-141 | there is one id per association, empty ids included |
| PreProcess.SubnetIdsMembers | custom_resources/msk/preprocesskafka/main.go:136-141 | an id is in the list exactly when some association of some table carries it |
| PreProcess.ServerPropertiesText | custom_resources/msk/preprocesskafka/main.go:188-191 | the loop produces every property followed by a newline, in input order (the newline-join of the properties and one final empty piece) |
| PreProcess.ServerPropertiesRoundTrip | custom_resources/msk/preprocesskafka/main.go:188-191 | properties without newlines are recovered by splitting the text on newlines, with one empty piece after the final newline |
| PreProcess.NonEmpty | custom_resources/msk/preprocesskafka/main.go:201-206 | an id is kept exactly when it is in the input and not empty, and the output is no longer than the input |
| PreProcess.KeepNonEmpty | custom_resources/msk/preprocesskafka/main.go:201-206 | the filter loop computes `NonEmpty` |
| PreProcess.NonEmptyAppend | custom_resources/msk/preprocesskafka/main.go:201-206 | filtering keeps the order of the ids it keeps |
| PreProcess.NonEmptyKeepsAll | custom_resources/msk/preprocesskafka/main.go:201-206 | with no empty ids, nothing is dropped |
| PreProcess.PrivateSubnetsSplit | custom_resources/msk/preprocesskafka/main.go:208-212 | the `PrivateSubnets` output splits back on commas into the non-empty ids |
| PreProcess.ConfigureCluster | custom_resources/msk/preprocesskafka/main.go:146-224 | Update and Delete give an empty response. Create fails, in order, on the VPC CIDR, the route tables, a missing ClusterConfig, missing ServerProperties, then the configuration. Otherwise the ARN is the physical id, and the data holds `ConfigurationArn`, `VpcCidr` and the comma-joined non-empty `PrivateSubnets` |
| Strings.Split | custom_resources/msk/postprocesskafka/main.go:118 | splitting gives at least one piece, and no piece contains the separator |
| Strings.JoinSplit | custom_resources/msk/postprocesskafka/main.go:249 | joining the pieces of a split gives back the string |
| Strings.SplitJoin | custom_resources/msk/preprocesskafka/main.go:211 | splitting a join of separator-free pieces gives back the pieces |
| Strings.Join | custom_resources/msk/preprocesskafka/main.go:211 | joining nothing gives "". Otherwise the result starts with the first piece, and its length is the pieces' total length plus one separator between each pair of neighbours |
| Strings.RemoveAll | custom_resources/msk/postprocesskafka/main.go:264 | deleting every occurrence never lengthens the string |
| Strings.RemoveAllKeepsPrefix | custom_resources/msk/postprocesskafka/main.go:264 | a prefix that cannot start an occurrence is kept unchanged |
| Strings.RemoveAllDropsLeading | custom_resources/msk/postprocesskafka/main.go:264 | a leading occurrence is deleted |
| Strings.RemoveAllWithoutOccurrence | custom_resources/msk/postprocesskafka/main.go:264 | a string in which the pattern occurs nowhere is left unchanged |
| Strings.RemoveAllDoesNotRescan | custom_resources/msk/postprocesskafka/main.go:264 | deletion does not rescan: `:21:218181` with `:2181` removed gives `:2181` |

## Left out

- Sockets, TLS, and the `sarama` broker and config objects are left out. The
  connection is the `Network` oracle. `MaxVersion` negotiation is not modelled.
- Closing the connection is left out. The source closes it only on the
  fall-through path of `createKafkaTopic`, and every earlier return leaves it
  open.
- The oracle answers the same way each time it is asked the same question.
  The source re-probes a broker that appears twice in the list, and so does
  the model. A cluster whose answers change between calls is not captured.
- The TopicErrors map is a sequence in the order the Go runtime happens to
  iterate it. Every branch of the source's loop returns, so only the first
  code is read. Which entry comes first is not modelled; the response carries
  one topic in practice.
- The broker whose string is `""`, when it answers 0 or 36, leaves the
  controller `""`, that is, still unknown. The source does the same. The
  lemmas about the controller name a non-empty broker.
- Parsing the topic list out of `ResourceProperties` is left out (lines
  273-283). This covers the type assertions and `strconv.Atoi`, whose errors
  the source discards, so a non-numeric count becomes 0. `ProvisionTopics`
  takes the parsed topics. A missing `TopicList` is the empty topic list.
- A ListConfigurations entry without a latest-revision record is left out.
  The source dereferences that record (`custom_resources/msk/preprocesskafka/main.go:46`), so such
  an entry makes it panic. `Configuration` always carries a revision number.
- Reading `VpcId`, `ClusterArn` and `HostedZone`, and the type assertions
  inside `ClusterConfig`, are left out. Those assertions panic in the source
  rather than return an error. A `ClusterConfig` or `ServerProperties` that is
  not of the expected shape is `None`.
- `recordSet`, `brokerConString` and `zookeeperConString` are left out. They
  return an SDK field or an error, and are inputs of `ProvisionTopics`.
  Session creation is left out as well.
- The DescribeRouteTables filters (`vpc-id`, and `route.nat-gateway-id` =
  `nat*`) are left out. `describeRouteTables` is an oracle keyed by the VPC id,
  and it returns the tables the filters select.
- Error message texts are left out. The errors are constructors carrying the
  same information: the topic name, the numeric code, and the configuration
  name.
- Logging, the Lambda entry points, and the Update-as-Create re-entry of
  `createTopics` are left out. The re-entry is folded into `ProvisionTopics`,
  where Update behaves as Create.
- KafkaClient.Kafka.TryTopicsOn: the source's inner loop is written inline in
  `createTopic`. It is a separate method here so that each loop is verified
  on its own. The behaviour is the same.
