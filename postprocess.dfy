/** The `createTopics` handler of the post-processing Lambda: the SSL broker
    list and the resolved zookeeper list it returns, and the order in which it
    fetches its inputs and provisions the topics. */
module PostProcess {
  import opened Results
  import opened Strings
  import opened KafkaClient

  const SSL_SCHEME := "SSL://"
  const ZOOKEEPER_CLIENT_PORT := ":2181"

  /** What `net.LookupIP` gives for one host: its addresses, or an error. */
  datatype Resolution = Resolved(ips: seq<string>) | Unresolved

  datatype ProvisionError =
    | HostedZoneLookupFailed
    | BrokerListFailed
    | ZookeeperListFailed
    | TopicCreationFailed(cause: KafkaError)

  // ---------------------------------------------------------------------------
  // Broker list

  function WithScheme(brokers: seq<string>): seq<string>
  {
    seq(|brokers|, i requires 0 <= i < |brokers| => SSL_SCHEME + brokers[i])
  }

  function Reversed(s: seq<string>): (r: seq<string>)
    ensures |r| == |s|
  {
    if |s| == 0 then [] else [s[|s| - 1]] + Reversed(s[..|s| - 1])
  }

  /** The entries of the SSL broker list in the order the source's loop emits
      them: all but the last broker prepended (so reversed), then the last. */
  function SslOrder(brokers: seq<string>): seq<string>
  {
    if |brokers| == 0 then []
    else Reversed(WithScheme(brokers[..|brokers| - 1])) + [SSL_SCHEME + brokers[|brokers| - 1]]
  }

  /** The SSL broker list the handler returns for a broker connection string. */
  function BrokerListSsl(brokers: string): string
  {
    Join(SslOrder(Split(brokers, ',')), ',')
  }

  /** The accumulator after prepending the given brokers, each followed by a comma. */
  function Prepended(brokers: seq<string>): string
  {
    if |brokers| == 0 then ""
    else SSL_SCHEME + brokers[|brokers| - 1] + "," + Prepended(brokers[..|brokers| - 1])
  }

  lemma {:induction false} PrependedThenLast(brokers: seq<string>, last: string)
    ensures Prepended(brokers) + SSL_SCHEME + last == Join(Reversed(WithScheme(brokers)) + [SSL_SCHEME + last], ',')
    decreases |brokers|
  {
    if |brokers| > 0 {
      var n := |brokers|;
      var init := brokers[..n - 1];
      PrependedThenLast(init, last);
      assert WithScheme(brokers)[..n - 1] == WithScheme(init);
      var tail := Reversed(WithScheme(init)) + [SSL_SCHEME + last];
      assert Reversed(WithScheme(brokers)) + [SSL_SCHEME + last] == [SSL_SCHEME + brokers[n - 1]] + tail;
      assert ([SSL_SCHEME + brokers[n - 1]] + tail)[1..] == tail;
    }
  }

  /** The loop of the handler that rewrites the broker list with the SSL scheme. */
  method FormatBrokerList(brokers: string) returns (sslList: string)
    ensures sslList == BrokerListSsl(brokers)
  {
    var list := Split(brokers, ',');
    sslList := "";
    var i := 0;
    while i < |list|
      invariant 0 <= i <= |list|
      invariant i < |list| ==> sslList == Prepended(list[..i])
      invariant i == |list| ==> sslList == Prepended(list[..i - 1]) + SSL_SCHEME + list[i - 1]
    {
      if i == |list| - 1 {
        sslList := sslList + SSL_SCHEME + list[i];
      } else {
        assert list[..i + 1][..i] == list[..i];
        sslList := SSL_SCHEME + list[i] + "," + sslList;
      }
      i := i + 1;
    }
    PrependedThenLast(list[..|list| - 1], list[|list| - 1]);
  }

  lemma {:induction false} ReversedAt(s: seq<string>, k: nat)
    requires k < |s|
    ensures Reversed(s)[k] == s[|s| - 1 - k]
    decreases |s|
  {
    if k > 0 {
      ReversedAt(s[..|s| - 1], k - 1);
    }
  }

  lemma {:induction false} ReversedPermutes(s: seq<string>)
    ensures multiset(Reversed(s)) == multiset(s)
    decreases |s|
  {
    if |s| > 0 {
      ReversedPermutes(s[..|s| - 1]);
      assert s == s[..|s| - 1] + [s[|s| - 1]];
    }
  }

  /** Position by position: brokers n-2 down to 0, then broker n-1, each with
      the scheme; one entry per broker. */
  lemma SslOrderShape(brokers: seq<string>)
    requires |brokers| > 0
    ensures |SslOrder(brokers)| == |brokers|
    ensures SslOrder(brokers)[|brokers| - 1] == SSL_SCHEME + brokers[|brokers| - 1]
    ensures forall j :: 0 <= j < |brokers| - 1 ==> SslOrder(brokers)[j] == SSL_SCHEME + brokers[|brokers| - 2 - j]
  {
    var n := |brokers|;
    forall j | 0 <= j < n - 1
      ensures SslOrder(brokers)[j] == SSL_SCHEME + brokers[n - 2 - j]
    {
      ReversedAt(WithScheme(brokers[..n - 1]), j);
    }
  }

  /** Every broker appears exactly once, with the scheme: the list is a
      permutation of the prefixed input. */
  lemma SslOrderPermutes(brokers: seq<string>)
    ensures multiset(SslOrder(brokers)) == multiset(WithScheme(brokers))
  {
    var n := |brokers|;
    if n > 0 {
      ReversedPermutes(WithScheme(brokers[..n - 1]));
      assert WithScheme(brokers) == WithScheme(brokers[..n - 1]) + [SSL_SCHEME + brokers[n - 1]];
    }
  }

  /** For host:port brokers (no commas) the output splits back into exactly
      one entry per broker: no empty entry, no trailing comma. */
  lemma BrokerListSslSplits(brokers: string)
    ensures Split(BrokerListSsl(brokers), ',') == SslOrder(Split(brokers, ','))
  {
    var list := Split(brokers, ',');
    SslOrderShape(list);
    var entries := SslOrder(list);
    forall i | 0 <= i < |entries| ensures ',' !in entries[i] {
      var b := if i == |list| - 1 then list[i] else list[|list| - 2 - i];
      assert entries[i] == SSL_SCHEME + b;
      assert ',' !in b;
    }
    SplitJoin(entries, ',');
  }

  /** A single broker gives one prefixed entry. */
  lemma SslSingleBroker(b: string)
    requires ',' !in b
    ensures BrokerListSsl(b) == SSL_SCHEME + b
  {
    SplitNoSeparator(b, ',');
    assert [b][..0] == [];
  }

  /** Three brokers come out as b1, b0, b2. */
  lemma SslThreeBrokers(b0: string, b1: string, b2: string)
    ensures SslOrder([b0, b1, b2]) == [SSL_SCHEME + b1, SSL_SCHEME + b0, SSL_SCHEME + b2]
  {
    SslOrderShape([b0, b1, b2]);
  }

  // ---------------------------------------------------------------------------
  // Zookeeper list

  function AddressesOf(r: Resolution): seq<string>
  {
    if r.Resolved? then r.ips else []
  }

  /** `strings.ReplaceAll(zookeepers, ":2181", "")`. */
  function StripClientPort(zookeepers: string): string
  {
    RemoveAll(zookeepers, ZOOKEEPER_CLIENT_PORT)
  }

  /** The addresses of the hosts, host by host, in host order. */
  function ResolvedAddresses(hosts: seq<string>, lookup: string -> Resolution): seq<string>
    decreases |hosts|
  {
    if |hosts| == 0 then []
    else ResolvedAddresses(hosts[..|hosts| - 1], lookup) + AddressesOf(lookup(hosts[|hosts| - 1]))
  }

  /** The zookeeper list the handler returns for a zookeeper connection string. */
  function ResolvedZookeepers(zookeepers: string, lookup: string -> Resolution): string
  {
    Join(ResolvedAddresses(Split(StripClientPort(zookeepers), ','), lookup), ',')
  }

  /** The loops of the handler that resolve every zookeeper host. */
  method ResolveZookeepers(zookeepers: string, lookup: string -> Resolution) returns (zk: string)
    ensures zk == ResolvedZookeepers(zookeepers, lookup)
  {
    var hosts := Split(StripClientPort(zookeepers), ',');
    var list: seq<string> := [];
    var i := 0;
    while i < |hosts|
      invariant 0 <= i <= |hosts|
      invariant list == ResolvedAddresses(hosts[..i], lookup)
    {
      var ips := AddressesOf(lookup(hosts[i]));
      var j := 0;
      while j < |ips|
        invariant 0 <= j <= |ips|
        invariant list == ResolvedAddresses(hosts[..i], lookup) + ips[..j]
      {
        list := list + [ips[j]];
        j := j + 1;
      }
      assert ips[..j] == ips;
      assert hosts[..i + 1][..i] == hosts[..i];
      i := i + 1;
    }
    assert hosts[..i] == hosts;
    zk := Join(list, ',');
  }

  /** Addresses come out in host order. */
  lemma {:induction false} ResolvedAddressesAppend(a: seq<string>, b: seq<string>, lookup: string -> Resolution)
    ensures ResolvedAddresses(a + b, lookup) == ResolvedAddresses(a, lookup) + ResolvedAddresses(b, lookup)
    decreases |b|
  {
    if |b| > 0 {
      var n := |b|;
      ResolvedAddressesAppend(a, b[..n - 1], lookup);
      assert (a + b)[..|a + b| - 1] == a + b[..n - 1];
      assert (a + b)[|a + b| - 1] == b[n - 1];
    } else {
      assert a + b == a;
    }
  }

  /** A host whose lookup fails contributes nothing, and the others are kept. */
  lemma {:induction false} UnresolvedHostIgnored(hosts: seq<string>, k: nat, lookup: string -> Resolution)
    requires k < |hosts| && lookup(hosts[k]).Unresolved?
    ensures ResolvedAddresses(hosts, lookup) == ResolvedAddresses(hosts[..k] + hosts[k + 1..], lookup)
  {
    var before, h, after := hosts[..k], hosts[k], hosts[k + 1..];
    var upTo := before + [h];
    assert hosts == upTo + after;
    assert upTo[..|upTo| - 1] == before && upTo[|upTo| - 1] == h;
    assert AddressesOf(lookup(h)) == [];
    var front := ResolvedAddresses(upTo, lookup);
    assert front == ResolvedAddresses(before, lookup);
    ResolvedAddressesAppend(upTo, after, lookup);
    ResolvedAddressesAppend(before, after, lookup);
  }

  /** An address is in the list exactly when some host resolved to it. */
  lemma {:induction false} ResolvedAddressesMembers(hosts: seq<string>, lookup: string -> Resolution, ip: string)
    ensures ip in ResolvedAddresses(hosts, lookup) <==>
            exists k :: 0 <= k < |hosts| && ip in AddressesOf(lookup(hosts[k]))
    decreases |hosts|
  {
    if |hosts| > 0 {
      var n := |hosts|;
      var init := hosts[..n - 1];
      ResolvedAddressesMembers(init, lookup, ip);
      if ip in ResolvedAddresses(hosts, lookup) {
        if ip !in AddressesOf(lookup(hosts[n - 1])) {
          var k :| 0 <= k < |init| && ip in AddressesOf(lookup(init[k]));
          assert init[k] == hosts[k];
        }
      } else {
        forall k | 0 <= k < n ensures ip !in AddressesOf(lookup(hosts[k])) {
          if k < n - 1 {
            assert init[k] == hosts[k];
          }
        }
      }
    }
  }

  function WithClientPort(hosts: seq<string>): seq<string>
  {
    seq(|hosts|, i requires 0 <= i < |hosts| => hosts[i] + ZOOKEEPER_CLIENT_PORT)
  }

  /** Stripping the port from a `host:2181,...` string leaves the bare hosts
      (host names contain no colon). */
  lemma {:induction false} StripJoinedPorts(hosts: seq<string>)
    requires |hosts| > 0
    requires forall i :: 0 <= i < |hosts| ==> ':' !in hosts[i]
    ensures StripClientPort(Join(WithClientPort(hosts), ',')) == Join(hosts, ',')
    decreases |hosts|
  {
    var pat := ZOOKEEPER_CLIENT_PORT;
    var h := hosts[0];
    assert pat[0] == ':';
    if |hosts| == 1 {
      assert WithClientPort(hosts) == [h + pat];
      RemoveAllKeepsPrefix(h, pat, pat);
      assert pat + "" == pat;
      RemoveAllDropsLeading("", pat);
    } else {
      var tail := hosts[1..];
      var rest := Join(WithClientPort(tail), ',');
      StripJoinedPorts(tail);
      assert WithClientPort(hosts)[0] == h + pat;
      assert WithClientPort(hosts)[1..] == WithClientPort(tail);
      assert Join(WithClientPort(hosts), ',') == h + (pat + ([','] + rest));
      RemoveAllKeepsPrefix(h, pat + ([','] + rest), pat);
      RemoveAllDropsLeading([','] + rest, pat);
      RemoveAllKeepsPrefix([','], rest, pat);
    }
  }

  /** The lookups receive exactly the zookeeper hosts, without the port. */
  lemma ZookeeperHostsRecovered(hosts: seq<string>)
    requires |hosts| > 0
    requires forall i :: 0 <= i < |hosts| ==> ':' !in hosts[i] && ',' !in hosts[i]
    ensures Split(StripClientPort(Join(WithClientPort(hosts), ',')), ',') == hosts
  {
    StripJoinedPorts(hosts);
    SplitJoin(hosts, ',');
  }

  /** Two zookeepers of which only the first resolves give that one address. */
  lemma PartialResolution(lookup: string -> Resolution)
    requires lookup("z1") == Resolved(["10.0.0.1"]) && lookup("z2") == Unresolved
    ensures ResolvedZookeepers("z1:2181,z2:2181", lookup) == "10.0.0.1"
  {
    var hosts := ["z1", "z2"];
    assert "z1" + ZOOKEEPER_CLIENT_PORT == "z1:2181" && "z2" + ZOOKEEPER_CLIENT_PORT == "z2:2181";
    assert WithClientPort(hosts) == ["z1:2181", "z2:2181"];
    assert Join(WithClientPort(hosts), ',') == "z1:2181,z2:2181";
    ZookeeperHostsRecovered(hosts);
    assert hosts[..1] == ["z1"] && ["z1"][..0] == [];
  }

  // ---------------------------------------------------------------------------
  // The handler

  /** `createTopics`: Create (and Update, which re-enters as Create) fetches
      the hosted zone name, the TLS broker string and the zookeeper string in
      that order, formats the outputs, then provisions the topics with a fresh
      client; Delete does nothing. */
  method ProvisionTopics(request: RequestType, zone: AwsReply<string>, brokers: AwsReply<string>,
                         zookeepers: AwsReply<string>, lookup: string -> Resolution, net: Network,
                         topics: seq<TopicConfig>)
    returns (r: Result<Response, ProvisionError>)
    ensures request == Delete ==> r == Success(Response("", map[]))
    ensures request != Delete && !zone.Replied? ==> r == Failure(HostedZoneLookupFailed)
    ensures request != Delete && zone.Replied? && !brokers.Replied? ==> r == Failure(BrokerListFailed)
    ensures request != Delete && zone.Replied? && brokers.Replied? && !zookeepers.Replied? ==>
              r == Failure(ZookeeperListFailed)
    ensures request != Delete && zone.Replied? && brokers.Replied? && zookeepers.Replied? ==>
              var run := BrokerSweep(net, Split(brokers.value, ','), topics, "");
              r == if run.error.Some? then Failure(TopicCreationFailed(run.error.value))
                   else Success(Response("", map["Brokers" := BrokerListSsl(brokers.value),
                                                 "Zookeepers" := ResolvedZookeepers(zookeepers.value, lookup),
                                                 "ZoneName" := zone.value]))
  {
    if request == Delete {
      return Success(Response("", map[]));
    }
    if !zone.Replied? {
      return Failure(HostedZoneLookupFailed);
    }
    if !brokers.Replied? {
      return Failure(BrokerListFailed);
    }
    var brokerListSsl := FormatBrokerList(brokers.value);
    if !zookeepers.Replied? {
      return Failure(ZookeeperListFailed);
    }
    var zk := ResolveZookeepers(zookeepers.value, lookup);
    var kafka := new Kafka(brokers.value, topics);
    var err := kafka.CreateTopic(net);
    if err.Some? {
      return Failure(TopicCreationFailed(err.value));
    }
    return Success(Response("", map["Brokers" := brokerListSsl, "Zookeepers" := zk, "ZoneName" := zone.value]));
  }
}
