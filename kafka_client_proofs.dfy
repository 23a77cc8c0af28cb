/** What the controller search of `createTopic` guarantees, stated over the
    sweep functions that `Kafka.CreateTopic` is proved to follow. */
module KafkaClientProofs {
  import opened Results
  import opened KafkaClient

  /** The attempts of one broker's topic loop, one per topic in order. */
  function Row(net: Network, broker: string, topics: seq<TopicConfig>): seq<Attempt>
  {
    seq(|topics|, j requires 0 <= j < |topics| => AttemptOn(net, broker, topics[j]))
  }

  /** The attempts of a sweep in which no broker is skipped and nothing fails. */
  function AllPairs(net: Network, brokers: seq<string>, topics: seq<TopicConfig>): seq<Attempt>
    decreases |brokers|
  {
    if |brokers| == 0 then [] else Row(net, brokers[0], topics) + AllPairs(net, brokers[1..], topics)
  }

  predicate ConfirmedAmong(net: Network, attempts: seq<Attempt>)
  {
    exists a :: a in attempts && OutcomeOf(net, a) == Confirmed
  }

  /** Connection failures come first; then an empty name fails without a
      request; then the first TopicErrors code is classified. */
  lemma ProbeClassification(net: Network, broker: string, conf: TopicConfig)
    ensures net.dial(broker) == OpenFailed ==> Probe(net, broker, conf) == Failed(BrokerOpenFailed)
    ensures net.dial(broker) == ConnectFailed ==> Probe(net, broker, conf) == Failed(BrokerNotConnected)
    ensures net.dial(broker) == Dialled && conf.name == "" ==> Probe(net, broker, conf) == Failed(EmptyTopicName)
    ensures net.dial(broker) == Dialled && conf.name != "" && net.send(broker, BuildRequest(conf)) == SendFailed
            ==> Probe(net, broker, conf) == Failed(CreateTopicsFailed(conf.name))
    ensures net.dial(broker) == Dialled && conf.name != "" && net.send(broker, BuildRequest(conf)) == TopicErrors([])
            ==> Probe(net, broker, conf) == Unconfirmed
    ensures forall code, rest ::
              (net.dial(broker) == Dialled && conf.name != "" && net.send(broker, BuildRequest(conf)) == TopicErrors([code] + rest)) ==>
              && (Probe(net, broker, conf) == Unconfirmed <==> code == NOT_CONTROLLER)
              && (Probe(net, broker, conf) == Confirmed <==> code == SUCCESS || code == TOPIC_ALREADY_EXISTS)
              && (Probe(net, broker, conf).Failed? <==> Probe(net, broker, conf) == Failed(TopicErrorCode(code)))
  {
  }

  /** An empty topic name is refused after the connection is opened, and no
      CreateTopics request goes out. */
  lemma EmptyNameSendsNothing(net: Network, broker: string, conf: TopicConfig)
    requires conf.name == ""
    ensures Probe(net, broker, conf).Failed?
    ensures AttemptOn(net, broker, conf).request == None
  {
  }

  /** Only the last attempt of a run can have failed: an attempt failed
      exactly when it is the last one and the run returns an error, and that
      error is the attempt's. */
  predicate FailsOnlyAtEnd(net: Network, r: Run)
  {
    && (forall j :: 0 <= j < |r.attempts| ==>
          (OutcomeOf(net, r.attempts[j]).Failed? <==> r.error.Some? && j == |r.attempts| - 1))
    && (r.error.Some? ==> |r.attempts| > 0 && OutcomeOf(net, r.attempts[|r.attempts| - 1]) == Failed(r.error.value))
  }

  /** Attempts that did not fail, placed before a run, keep it failing only at its end. */
  lemma FailsOnlyAtEndPreceded(net: Network, made: seq<Attempt>, r: Run)
    requires forall j :: 0 <= j < |made| ==> !OutcomeOf(net, made[j]).Failed?
    requires FailsOnlyAtEnd(net, r)
    ensures FailsOnlyAtEnd(net, Preceded(made, r))
  {
  }

  /** One broker's topic loop: one attempt per topic, in topic order, and
      every topic when nothing failed. */
  lemma {:induction false} TopicSweepAttempts(net: Network, broker: string, topics: seq<TopicConfig>, controller: string)
    ensures |TopicSweep(net, broker, topics, controller).attempts| <= |topics|
    ensures forall j :: 0 <= j < |TopicSweep(net, broker, topics, controller).attempts| ==>
              TopicSweep(net, broker, topics, controller).attempts[j] == AttemptOn(net, broker, topics[j])
    ensures TopicSweep(net, broker, topics, controller).error.None? ==>
              |TopicSweep(net, broker, topics, controller).attempts| == |topics|
    decreases |topics|
  {
    if |topics| > 0 {
      var o := Probe(net, broker, topics[0]);
      var a := AttemptOn(net, broker, topics[0]);
      var r := TopicSweep(net, broker, topics, controller);
      if !o.Failed? {
        var next := if o == Confirmed then broker else controller;
        var rest := TopicSweep(net, broker, topics[1..], next);
        TopicSweepAttempts(net, broker, topics[1..], next);
        assert r.attempts == [a] + rest.attempts;
        forall j | 1 <= j < |r.attempts|
          ensures r.attempts[j] == AttemptOn(net, broker, topics[j])
        {
          assert r.attempts[j] == rest.attempts[j - 1];
          assert topics[1..][j - 1] == topics[j];
        }
      }
    }
  }

  /** One broker's topic loop stops at its first failure. */
  lemma {:induction false} TopicSweepStopsAtFailure(net: Network, broker: string, topics: seq<TopicConfig>, controller: string)
    ensures FailsOnlyAtEnd(net, TopicSweep(net, broker, topics, controller))
    decreases |topics|
  {
    if |topics| > 0 {
      var o := Probe(net, broker, topics[0]);
      var a := AttemptOn(net, broker, topics[0]);
      assert OutcomeOf(net, a) == o;
      if !o.Failed? {
        var next := if o == Confirmed then broker else controller;
        TopicSweepStopsAtFailure(net, broker, topics[1..], next);
        FailsOnlyAtEndPreceded(net, [a], TopicSweep(net, broker, topics[1..], next));
      }
    }
  }

  /** One broker's topic loop leaves the controller as it found it unless one
      of its attempts was accepted, and then the controller is that broker. */
  lemma {:induction false} TopicSweepController(net: Network, broker: string, topics: seq<TopicConfig>, controller: string)
    ensures forall a :: a in TopicSweep(net, broker, topics, controller).attempts ==> a.broker == broker
    ensures var r := TopicSweep(net, broker, topics, controller);
            r.controller == if ConfirmedAmong(net, r.attempts) then broker else controller
    decreases |topics|
  {
    if |topics| > 0 {
      var o := Probe(net, broker, topics[0]);
      var a := AttemptOn(net, broker, topics[0]);
      var r := TopicSweep(net, broker, topics, controller);
      assert OutcomeOf(net, a) == o;
      if !o.Failed? {
        var next := if o == Confirmed then broker else controller;
        var rest := TopicSweep(net, broker, topics[1..], next);
        TopicSweepController(net, broker, topics[1..], next);
        assert r.attempts == [a] + rest.attempts;
        if o == Confirmed {
          assert ConfirmedAmong(net, r.attempts);
        } else {
          assert ConfirmedAmong(net, r.attempts) == ConfirmedAmong(net, rest.attempts);
        }
      } else {
        assert r.attempts == [a];
      }
    }
  }

  /** The first hard error ends the whole run: it is the outcome of the last
      attempt, and no attempt before it failed. */
  lemma {:induction false} FirstErrorWins(net: Network, brokers: seq<string>, topics: seq<TopicConfig>, controller: string)
    ensures FailsOnlyAtEnd(net, BrokerSweep(net, brokers, topics, controller))
    decreases |brokers|
  {
    if |brokers| > 0 {
      if controller != "" && brokers[0] != controller {
        FirstErrorWins(net, brokers[1..], topics, controller);
      } else {
        var here := TopicSweep(net, brokers[0], topics, controller);
        TopicSweepStopsAtFailure(net, brokers[0], topics, controller);
        if here.error.None? {
          FirstErrorWins(net, brokers[1..], topics, here.controller);
          FailsOnlyAtEndPreceded(net, here.attempts, BrokerSweep(net, brokers[1..], topics, here.controller));
        }
      }
    }
  }

  /** The skip rule: once a controller is known only that broker is probed,
      and the controller never changes. */
  lemma {:induction false} KnownControllerKept(net: Network, brokers: seq<string>, topics: seq<TopicConfig>, controller: string)
    requires controller != ""
    ensures BrokerSweep(net, brokers, topics, controller).controller == controller
    ensures forall a :: a in BrokerSweep(net, brokers, topics, controller).attempts ==> a.broker == controller
    decreases |brokers|
  {
    if |brokers| > 0 {
      if brokers[0] != controller {
        KnownControllerKept(net, brokers[1..], topics, controller);
      } else {
        var here := TopicSweep(net, controller, topics, controller);
        TopicSweepController(net, controller, topics, controller);
        if here.error.None? {
          KnownControllerKept(net, brokers[1..], topics, controller);
        }
      }
    }
  }

  /** The controller only ever changes to a broker that accepted a topic
      (answered success or already exists). */
  lemma {:induction false} ControllerOnlyFromAcceptance(net: Network, brokers: seq<string>, topics: seq<TopicConfig>, controller: string)
    ensures var r := BrokerSweep(net, brokers, topics, controller);
            r.controller != controller ==>
              exists a :: a in r.attempts && a.broker == r.controller && OutcomeOf(net, a) == Confirmed
    decreases |brokers|
  {
    var r := BrokerSweep(net, brokers, topics, controller);
    if |brokers| > 0 {
      if controller != "" && brokers[0] != controller {
        ControllerOnlyFromAcceptance(net, brokers[1..], topics, controller);
      } else {
        var b := brokers[0];
        var here := TopicSweep(net, b, topics, controller);
        TopicSweepController(net, b, topics, controller);
        if here.error.None? {
          var rest := BrokerSweep(net, brokers[1..], topics, here.controller);
          ControllerOnlyFromAcceptance(net, brokers[1..], topics, here.controller);
          assert r.attempts == here.attempts + rest.attempts;
          if r.controller != controller {
            if rest.controller != here.controller {
              var a :| a in rest.attempts && a.broker == rest.controller && OutcomeOf(net, a) == Confirmed;
              assert a in r.attempts;
            } else {
              var a :| a in here.attempts && OutcomeOf(net, a) == Confirmed;
              assert a in r.attempts;
            }
          }
        }
      }
    }
  }

  /** After the first accepting attempt on a named broker every later attempt
      goes to that broker, and it is the final controller. */
  predicate SettledByAcceptance(net: Network, r: Run)
  {
    forall i :: 0 <= i < |r.attempts| && r.attempts[i].broker != "" && OutcomeOf(net, r.attempts[i]) == Confirmed ==>
      && r.controller == r.attempts[i].broker
      && forall j :: i < j < |r.attempts| ==> r.attempts[j].broker == r.attempts[i].broker
  }

  /** Attempts on one named broker placed before a run that settles, where
      an acceptance among them pins the run to that broker, give a run that
      settles. */
  lemma SettledAfter(net: Network, made: seq<Attempt>, r: Run, b: string)
    requires forall j :: 0 <= j < |made| ==> made[j].broker == b
    requires b != "" && ConfirmedAmong(net, made) ==>
               r.controller == b && forall a :: a in r.attempts ==> a.broker == b
    requires SettledByAcceptance(net, r)
    ensures SettledByAcceptance(net, Preceded(made, r))
  {
  }

  /** Controller set once: the controller search settles at the first broker
      that accepts a topic. */
  lemma {:induction false} ControllerSetOnce(net: Network, brokers: seq<string>, topics: seq<TopicConfig>, controller: string)
    ensures SettledByAcceptance(net, BrokerSweep(net, brokers, topics, controller))
    decreases |brokers|
  {
    if |brokers| > 0 {
      if controller != "" && brokers[0] != controller {
        ControllerSetOnce(net, brokers[1..], topics, controller);
      } else {
        var b := brokers[0];
        var here := TopicSweep(net, b, topics, controller);
        TopicSweepController(net, b, topics, controller);
        forall j | 0 <= j < |here.attempts| ensures here.attempts[j].broker == b {
          assert here.attempts[j] in here.attempts;
        }
        if here.error.Some? {
          var stop := Run(here.controller, [], here.error);
          assert Preceded(here.attempts, stop) == here;
          SettledAfter(net, here.attempts, stop, b);
        } else {
          var rest := BrokerSweep(net, brokers[1..], topics, here.controller);
          ControllerSetOnce(net, brokers[1..], topics, here.controller);
          if b != "" && ConfirmedAmong(net, here.attempts) {
            KnownControllerKept(net, brokers[1..], topics, b);
          }
          SettledAfter(net, here.attempts, rest, b);
        }
      }
    }
  }

  /** A broker that answers "not controller" to every topic gets every topic
      and leaves the controller alone. */
  lemma {:induction false} TopicSweepAllDeclined(net: Network, broker: string, topics: seq<TopicConfig>, controller: string)
    requires forall t :: t in topics ==> Probe(net, broker, t) == Unconfirmed
    ensures TopicSweep(net, broker, topics, controller) == Run(controller, Row(net, broker, topics), None)
    decreases |topics|
  {
    if |topics| > 0 {
      TopicSweepAllDeclined(net, broker, topics[1..], controller);
      assert Row(net, broker, topics) == [AttemptOn(net, broker, topics[0])] + Row(net, broker, topics[1..]);
    }
  }

  /** A broker that accepts every topic gets every topic and becomes the
      controller. */
  lemma {:induction false} TopicSweepAllAccepted(net: Network, broker: string, topics: seq<TopicConfig>, controller: string)
    requires |topics| > 0
    requires forall t :: t in topics ==> Probe(net, broker, t) == Confirmed
    ensures TopicSweep(net, broker, topics, controller) == Run(broker, Row(net, broker, topics), None)
    decreases |topics|
  {
    assert Row(net, broker, topics) == [AttemptOn(net, broker, topics[0])] + Row(net, broker, topics[1..]);
    if |topics| > 1 {
      TopicSweepAllAccepted(net, broker, topics[1..], broker);
    }
  }

  /** The silent no-op: when no broker ever accepts or fails (every answer is
      "not controller" or an empty TopicErrors map), every broker gets every
      topic, no controller is found, and no error is returned. */
  lemma {:induction false} SilentSweep(net: Network, brokers: seq<string>, topics: seq<TopicConfig>)
    requires forall b, t :: b in brokers && t in topics ==> Probe(net, b, t) == Unconfirmed
    ensures BrokerSweep(net, brokers, topics, "") == Run("", AllPairs(net, brokers, topics), None)
    decreases |brokers|
  {
    if |brokers| > 0 {
      TopicSweepAllDeclined(net, brokers[0], topics, "");
      SilentSweep(net, brokers[1..], topics);
    }
  }

  /** A known controller that is not in the broker list means no attempt at all. */
  lemma {:induction false} SkippedWhenAbsent(net: Network, brokers: seq<string>, topics: seq<TopicConfig>, controller: string)
    requires controller != "" && controller !in brokers
    ensures BrokerSweep(net, brokers, topics, controller) == Run(controller, [], None)
    decreases |brokers|
  {
    if |brokers| > 0 {
      SkippedWhenAbsent(net, brokers[1..], topics, controller);
    }
  }

  /** When being the controller is a property of the broker (it accepts every
      topic, every other broker answers "not controller"), the brokers up to
      and including the controller get every topic, and the brokers after it
      get none. */
  lemma {:induction false} SearchStopsAtController(net: Network, brokers: seq<string>, topics: seq<TopicConfig>, k: nat)
    requires k < |brokers| && brokers[k] != ""
    requires forall j :: 0 <= j < |brokers| && j != k ==> brokers[j] != brokers[k]
    requires |topics| > 0
    requires forall t :: t in topics ==> Probe(net, brokers[k], t) == Confirmed
    requires forall b, t :: b in brokers && b != brokers[k] && t in topics ==> Probe(net, b, t) == Unconfirmed
    ensures BrokerSweep(net, brokers, topics, "") == Run(brokers[k], AllPairs(net, brokers[..k + 1], topics), None)
    decreases k
  {
    var c := brokers[k];
    if k == 0 {
      TopicSweepAllAccepted(net, c, topics, "");
      assert c !in brokers[1..] by {
        forall j | 0 <= j < |brokers[1..]| ensures brokers[1..][j] != c { assert brokers[1..][j] == brokers[j + 1]; }
      }
      SkippedWhenAbsent(net, brokers[1..], topics, c);
      assert brokers[..1] == [c];
      assert AllPairs(net, [c], topics) == Row(net, c, topics) + AllPairs(net, [], topics);
    } else {
      assert brokers[0] != c;
      TopicSweepAllDeclined(net, brokers[0], topics, "");
      var tail := brokers[1..];
      assert tail[k - 1] == c;
      forall j | 0 <= j < |tail| && j != k - 1 ensures tail[j] != c { assert tail[j] == brokers[j + 1]; }
      SearchStopsAtController(net, tail, topics, k - 1);
      assert brokers[..k + 1][1..] == tail[..k];
      assert brokers[..k + 1][0] == brokers[0];
    }
  }
}
