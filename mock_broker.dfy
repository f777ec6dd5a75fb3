/**
 * The mock MQTT broker: routing and session state kept in six maps
 * (topic receivers, client senders, pubrel receivers, subscriber lists,
 * retained messages, wills), the publish/pubrel dispatch, and the
 * subscribe, unsubscribe and will request handlers of the event bus.
 *
 * AMQP links are abstract identifiers drawn from a counter, so that a link
 * that is created is visibly fresh and a link that exists is visibly kept.
 * Every message the broker sends is appended to an output log.
 */
module Mqtt {
  import Wrappers

  type Topic = string
  type ClientId = string
  type LinkName = string
  type LinkId = nat

  /** MQTT quality-of-service levels (io.netty's MqttQoS). */
  datatype MqttQos = AtMostOnce | AtLeastOnce | ExactlyOnce | Failure

  /** AMQP subjects that tell a raw message's category. */
  const PUBLISH_SUBJECT: string := "publish"
  const PUBREL_SUBJECT: string := "pubrel"

  /** Values of the "will-action" header on the "will" event-bus address. */
  const WILL_ACTION_ADD: string := "will-add"
  const WILL_ACTION_CLEAR: string := "will-clear"
  const WILL_ACTION_DELIVERY: string := "will-delivery"

  /** Address of the sender that forwards to one client. */
  function ClientAddress(c: ClientId): string { "$mqtt.to." + c }

  /** Address of the receiver that takes one client's PUBREL messages. */
  function PubrelAddress(c: ClientId): string { "$mqtt." + c + ".pubrel" }

  datatype TopicSubscription = TopicSubscription(topic: Topic, qos: MqttQos)
  datatype SubscribeMessage = SubscribeMessage(clientId: ClientId, topicSubscriptions: seq<TopicSubscription>)
  datatype UnsubscribeMessage = UnsubscribeMessage(clientId: ClientId, topics: seq<Topic>)
  datatype WillMessage = WillMessage(isRetain: bool, topic: Topic, qos: MqttQos, payload: seq<bv8>)
  datatype PublishMessage =
    PublishMessage(messageId: int, qos: MqttQos, isDup: bool, isRetain: bool, topic: Topic, payload: seq<bv8>)

  /**
   * A raw AMQP message: its subject and the publish fields it carries.
   * Decoding a raw message reads `content`; encoding a publish message
   * gives the message with subject "publish" and that content.
   */
  datatype AmqpMessage = AmqpMessage(subject: Wrappers.Option<string>, content: PublishMessage)

  function ToAmqp(p: PublishMessage): AmqpMessage { AmqpMessage(Wrappers.Some(PUBLISH_SUBJECT), p) }

  /** What a request producer leaves in the shared local map under a correlation key. */
  datatype SharedObject =
    | SubscribeData(subscribe: SubscribeMessage)
    | UnsubscribeData(unsubscribe: UnsubscribeMessage)
    | WillData(will: WillMessage)
    | OtherObject

  /** The receiving link a delivery arrived on. */
  datatype InboundLink = TopicLink(topic: Topic) | PubrelLink(clientId: ClientId)

  /** The source address of a receiving link. */
  function Address(link: InboundLink): string
  {
    match link
    case TopicLink(t) => t
    case PubrelLink(c) => PubrelAddress(c)
  }

  /** One send on an outgoing link: the link, its target address and the message. */
  datatype Sent = Sent(link: LinkId, address: string, message: AmqpMessage)

  /** Replies on the event bus. */
  datatype Reply = GrantedQos(levels: seq<MqttQos>) | EmptyReply | WillPublished(published: bool)

  // ---------------------------------------------------------------------
  // Subscriber lists

  /** The subscriber list of a topic; an absent topic has none. */
  function ListOf(subs: map<Topic, seq<ClientId>>, t: Topic): seq<ClientId>
  {
    if t in subs then subs[t] else []
  }

  /** The subscriber lists after `c` subscribes to each entry in turn. */
  function Subscribed(subs: map<Topic, seq<ClientId>>, entries: seq<TopicSubscription>, c: ClientId): map<Topic, seq<ClientId>>
    decreases |entries|
  {
    if entries == [] then subs
    else
      var prev := Subscribed(subs, entries[..|entries| - 1], c);
      var t := entries[|entries| - 1].topic;
      prev[t := ListOf(prev, t) + [c]]
  }

  /** How many entries name topic `t`. */
  function CountTopic(entries: seq<TopicSubscription>, t: Topic): nat
    decreases |entries|
  {
    if entries == [] then 0
    else CountTopic(entries[..|entries| - 1], t) + (if entries[|entries| - 1].topic == t then 1 else 0)
  }

  /** The topics the entries name. */
  function TopicsOf(entries: seq<TopicSubscription>): set<Topic>
    decreases |entries|
  {
    if entries == [] then {} else TopicsOf(entries[..|entries| - 1]) + {entries[|entries| - 1].topic}
  }

  function Repeat(c: ClientId, n: nat): seq<ClientId>
  {
    seq(n, _ => c)
  }

  /** The reply carries the requested level of every entry, in request order. */
  ghost predicate GrantsRequested(granted: seq<MqttQos>, entries: seq<TopicSubscription>)
  {
    |granted| == |entries| && forall i :: 0 <= i < |entries| ==> granted[i] == entries[i].qos
  }

  /** The requested levels of the entries, in order. */
  function Requested(entries: seq<TopicSubscription>): seq<MqttQos>
    decreases |entries|
  {
    if entries == [] then [] else Requested(entries[..|entries| - 1]) + [entries[|entries| - 1].qos]
  }

  lemma {:induction false} RequestedGrants(entries: seq<TopicSubscription>)
    ensures GrantsRequested(Requested(entries), entries)
    decreases |entries|
  {
    if entries != [] {
      RequestedGrants(entries[..|entries| - 1]);
    }
  }

  /**
   * Subscribing appends the client once per entry naming the topic, after
   * what the list held (duplicates kept); a topic no entry names keeps its list.
   */
  lemma {:induction false} SubscribedAppends(subs: map<Topic, seq<ClientId>>, entries: seq<TopicSubscription>, c: ClientId, t: Topic)
    ensures ListOf(Subscribed(subs, entries, c), t) == ListOf(subs, t) + Repeat(c, CountTopic(entries, t))
    decreases |entries|
  {
    if entries == [] {
      assert Repeat(c, 0) == [];
    } else {
      var p := entries[..|entries| - 1];
      SubscribedAppends(subs, p, c, t);
      var k := CountTopic(p, t);
      if entries[|entries| - 1].topic == t {
        assert Repeat(c, k + 1) == Repeat(c, k) + [c];
      }
    }
  }

  /** Subscribing creates a list for every named topic and removes none. */
  lemma {:induction false} SubscribedKeys(subs: map<Topic, seq<ClientId>>, entries: seq<TopicSubscription>, c: ClientId)
    ensures Subscribed(subs, entries, c).Keys == subs.Keys + TopicsOf(entries)
    decreases |entries|
  {
    if entries != [] {
      var p := entries[..|entries| - 1];
      SubscribedKeys(subs, p, c);
    }
  }

  /** A topic gets new entries exactly when some entry names it. */
  lemma {:induction false} CountTopicPositive(entries: seq<TopicSubscription>, t: Topic)
    ensures CountTopic(entries, t) > 0 <==> t in TopicsOf(entries)
    decreases |entries|
  {
    if entries != [] {
      var p := entries[..|entries| - 1];
      CountTopicPositive(p, t);
    }
  }

  /** Subscribing the same client to the same topic twice records it twice. */
  lemma DuplicateSubscribeKept(subs: map<Topic, seq<ClientId>>, c: ClientId, e: TopicSubscription)
    ensures ListOf(Subscribed(subs, [e, e], c), e.topic) == ListOf(subs, e.topic) + [c, c]
  {
    SubscribedAppends(subs, [e, e], c, e.topic);
    assert [e, e][..1] == [e] && [e][..0] == [];
    assert CountTopic([e], e.topic) == CountTopic([], e.topic) + 1 == 1;
    assert CountTopic([e, e], e.topic) == CountTopic([e], e.topic) + 1 == 2;
    assert Repeat(c, 2) == [c, c];
  }

  /**
   * The broker invariant on subscriber lists: no list is empty, every
   * subscribed topic has a receiver, and every subscriber is a known client.
   */
  ghost predicate SubscriptionsConsistent(subs: map<Topic, seq<ClientId>>, topics: set<Topic>, clients: set<ClientId>)
  {
    && (forall t :: t in subs ==> |subs[t]| > 0 && t in topics)
    && (forall t, i :: t in subs && 0 <= i < |subs[t]| ==> subs[t][i] in clients)
  }

  /** One more entry processed: its topic's list grows by the client and the topic is named. */
  lemma SubscribedStep(subs: map<Topic, seq<ClientId>>, entries: seq<TopicSubscription>, i: nat, c: ClientId)
    requires i < |entries|
    ensures var p := Subscribed(subs, entries[..i], c);
      Subscribed(subs, entries[..i + 1], c) == p[entries[i].topic := ListOf(p, entries[i].topic) + [c]]
    ensures TopicsOf(entries[..i + 1]) == TopicsOf(entries[..i]) + {entries[i].topic}
    ensures Requested(entries[..i + 1]) == Requested(entries[..i]) + [entries[i].qos]
  {
    assert entries[..i + 1][..i] == entries[..i];
    assert entries[..i + 1] == entries[..i] + [entries[i]];
  }

  /** A single-entry subscribe appends the client to that entry's topic. */
  lemma SubscribedOne(subs: map<Topic, seq<ClientId>>, e: TopicSubscription, c: ClientId)
    ensures Subscribed(subs, [e], c) == subs[e.topic := ListOf(subs, e.topic) + [c]]
  {
  }

  /** Subscribing keeps the invariant once the topics have receivers and the client has links. */
  lemma {:induction false} SubscribeKeepsConsistent(
    subs: map<Topic, seq<ClientId>>, entries: seq<TopicSubscription>, c: ClientId, topics: set<Topic>, clients: set<ClientId>)
    requires SubscriptionsConsistent(subs, topics, clients)
    requires TopicsOf(entries) <= topics
    requires entries != [] ==> c in clients
    ensures SubscriptionsConsistent(Subscribed(subs, entries, c), topics, clients)
    decreases |entries|
  {
    if entries != [] {
      var p := entries[..|entries| - 1];
      SubscribeKeepsConsistent(subs, p, c, topics, clients);
    }
  }

  // ---------------------------------------------------------------------
  // Unsubscribing

  /** java.util.List.remove(Object): drops the first occurrence, if there is one. */
  function RemoveFirst(l: seq<ClientId>, c: ClientId): seq<ClientId>
    decreases |l|
  {
    if l == [] then []
    else if l[0] == c then l[1..]
    else [l[0]] + RemoveFirst(l[1..], c)
  }

  /** Removing an absent client changes nothing. */
  lemma {:induction false} RemoveFirstAbsent(l: seq<ClientId>, c: ClientId)
    requires c !in l
    ensures RemoveFirst(l, c) == l
    decreases |l|
  {
    if l != [] {
      assert l == [l[0]] + l[1..];
      RemoveFirstAbsent(l[1..], c);
    }
  }

  /** Index of the first occurrence of `c` in `l`. */
  function FirstIndex(l: seq<ClientId>, c: ClientId): (i: nat)
    requires c in l
    ensures i < |l| && l[i] == c && c !in l[..i]
    decreases |l|
  {
    if l[0] == c then 0
    else
      assert l == [l[0]] + l[1..];
      var j := FirstIndex(l[1..], c);
      assert l[..j + 1] == [l[0]] + l[1..][..j];
      j + 1
  }

  /** Removing a present client cuts out its first occurrence and nothing else. */
  lemma {:induction false} RemoveFirstPresent(l: seq<ClientId>, c: ClientId)
    requires c in l
    ensures RemoveFirst(l, c) == l[..FirstIndex(l, c)] + l[FirstIndex(l, c) + 1..]
    decreases |l|
  {
    if l[0] != c {
      assert l == [l[0]] + l[1..];
      RemoveFirstPresent(l[1..], c);
      var j := FirstIndex(l[1..], c);
      assert FirstIndex(l, c) == j + 1;
      assert l[..j + 1] == [l[0]] + l[1..][..j];
      assert l[j + 2..] == l[1..][j + 1..];
    }
  }

  /** Removal takes away one copy of the client, if there is one, and keeps all else. */
  lemma {:induction false} RemoveFirstMultiset(l: seq<ClientId>, c: ClientId)
    ensures multiset(RemoveFirst(l, c)) == multiset(l) - multiset{c}
    ensures forall x :: x in RemoveFirst(l, c) ==> x in l
    decreases |l|
  {
    if l != [] {
      assert l == [l[0]] + l[1..];
      RemoveFirstMultiset(l[1..], c);
      if l[0] != c {
        assert RemoveFirst(l, c) == [l[0]] + RemoveFirst(l[1..], c);
        assert multiset(RemoveFirst(l, c)) == multiset{l[0]} + multiset(RemoveFirst(l[1..], c));
        forall x | x in RemoveFirst(l, c) ensures x in l {
          if x != l[0] {
            assert x in multiset(RemoveFirst(l[1..], c));
          }
        }
      } else {
        forall x | x in RemoveFirst(l, c) ensures x in l {
          assert x in l[1..];
        }
      }
    }
  }

  /** One topic's removal: drop one occurrence and, when the list empties, the topic. */
  function RemoveSubscriber(subs: map<Topic, seq<ClientId>>, t: Topic, c: ClientId): map<Topic, seq<ClientId>>
    requires t in subs
  {
    var l := RemoveFirst(subs[t], c);
    if |l| == 0 then subs - {t} else subs[t := l]
  }

  /**
   * The outcome of an unsubscribe: the lists it leaves and whether it got
   * through every named topic. A topic with no list stops it (a null
   * dereference in the broker); removals already made stay.
   */
  datatype Removal = Removal(subscriptions: map<Topic, seq<ClientId>>, complete: bool)

  function Unsubscribed(subs: map<Topic, seq<ClientId>>, topics: seq<Topic>, c: ClientId): Removal
    decreases |topics|
  {
    if topics == [] then Removal(subs, true)
    else if topics[0] !in subs then Removal(subs, false)
    else Unsubscribed(RemoveSubscriber(subs, topics[0], c), topics[1..], c)
  }

  /**
   * With distinct named topics that all have lists, unsubscribe completes,
   * each named list loses the first occurrence of the client and disappears
   * when it becomes empty, and every other list is kept as it was.
   */
  lemma {:induction false} UnsubscribeDistinctTopics(subs: map<Topic, seq<ClientId>>, topics: seq<Topic>, c: ClientId)
    requires forall i, j :: 0 <= i < j < |topics| ==> topics[i] != topics[j]
    requires forall i :: 0 <= i < |topics| ==> topics[i] in subs
    ensures Unsubscribed(subs, topics, c).complete
    ensures forall t :: t in topics ==>
      var r := Unsubscribed(subs, topics, c).subscriptions;
      (t in r <==> RemoveFirst(subs[t], c) != []) && (t in r ==> r[t] == RemoveFirst(subs[t], c))
    ensures forall t :: t !in topics ==>
      var r := Unsubscribed(subs, topics, c).subscriptions;
      (t in r <==> t in subs) && (t in r ==> r[t] == subs[t])
    decreases |topics|
  {
    if topics != [] {
      var t := topics[0];
      var next := RemoveSubscriber(subs, t, c);
      var rest := topics[1..];
      forall i | 0 <= i < |rest| ensures rest[i] in next {
        assert rest[i] == topics[i + 1] && topics[i + 1] != topics[0];
      }
      forall i, j | 0 <= i < j < |rest| ensures rest[i] != rest[j] {
        assert rest[i] == topics[i + 1] && rest[j] == topics[j + 1];
      }
      UnsubscribeDistinctTopics(next, rest, c);
      assert t !in rest by {
        forall i | 0 <= i < |rest| ensures rest[i] != t {
          assert rest[i] == topics[i + 1];
        }
      }
      assert topics == [t] + rest;
    }
  }

  /**
   * Unsubscribe only ever takes lists away, and it gets through only when
   * every named topic had a list to begin with.
   */
  lemma {:induction false} UnsubscribeShrinks(subs: map<Topic, seq<ClientId>>, topics: seq<Topic>, c: ClientId)
    ensures Unsubscribed(subs, topics, c).subscriptions.Keys <= subs.Keys
    ensures Unsubscribed(subs, topics, c).complete ==> forall t :: t in topics ==> t in subs
    decreases |topics|
  {
    if topics != [] && topics[0] in subs {
      UnsubscribeShrinks(RemoveSubscriber(subs, topics[0], c), topics[1..], c);
      assert topics == [topics[0]] + topics[1..];
    }
  }

  /**
   * A topic named twice whose list the first mention empties stops the
   * unsubscribe at the second mention: the topic had a list when the request
   * came in, yet the unsubscribe does not get through.
   */
  lemma UnsubscribeRepeatedTopic()
    ensures Unsubscribed(map["x" := ["c1"]], ["x", "x"], "c1") == Removal(map[], false)
  {
    assert RemoveFirst(["c1"], "c1") == [];
    assert RemoveSubscriber(map["x" := ["c1"]], "x", "c1") == map[];
    assert ["x", "x"][1..] == ["x"];
  }

  /** Removing one subscriber from one topic keeps the subscriber-list invariant. */
  lemma RemoveSubscriberKeepsConsistent(
    subs: map<Topic, seq<ClientId>>, t: Topic, c: ClientId, receiverTopics: set<Topic>, clients: set<ClientId>)
    requires t in subs
    requires SubscriptionsConsistent(subs, receiverTopics, clients)
    ensures SubscriptionsConsistent(RemoveSubscriber(subs, t, c), receiverTopics, clients)
  {
    RemoveFirstMultiset(subs[t], c);
    var next := RemoveSubscriber(subs, t, c);
    forall k, i | k in next && 0 <= i < |next[k]| ensures next[k][i] in clients {
      if k == t {
        assert next[k][i] in RemoveFirst(subs[t], c);
      }
    }
  }

  /** Unsubscribe keeps the subscriber-list invariant. */
  lemma {:induction false} UnsubscribeKeepsConsistent(
    subs: map<Topic, seq<ClientId>>, topics: seq<Topic>, c: ClientId, receiverTopics: set<Topic>, clients: set<ClientId>)
    requires SubscriptionsConsistent(subs, receiverTopics, clients)
    ensures SubscriptionsConsistent(Unsubscribed(subs, topics, c).subscriptions, receiverTopics, clients)
    decreases |topics|
  {
    if topics != [] && topics[0] in subs {
      RemoveSubscriberKeepsConsistent(subs, topics[0], c, receiverTopics, clients);
      UnsubscribeKeepsConsistent(RemoveSubscriber(subs, topics[0], c), topics[1..], c, receiverTopics, clients);
    }
  }

  // ---------------------------------------------------------------------
  // Fan-out and retained replay

  function SendTo(senders: map<ClientId, LinkId>, c: ClientId, m: AmqpMessage): Sent
    requires c in senders
  {
    Sent(senders[c], ClientAddress(c), m)
  }

  /** The sends of a publish: one per subscriber, in list order, each carrying the message unchanged. */
  function FanOut(clients: seq<ClientId>, senders: map<ClientId, LinkId>, m: AmqpMessage): seq<Sent>
    requires forall i :: 0 <= i < |clients| ==> clients[i] in senders
    decreases |clients|
  {
    if clients == [] then []
    else FanOut(clients[..|clients| - 1], senders, m) + [SendTo(senders, clients[|clients| - 1], m)]
  }

  /** Number of occurrences of `x` in a list. */
  function Count(l: seq<ClientId>, x: ClientId): nat
    decreases |l|
  {
    if l == [] then 0 else Count(l[..|l| - 1], x) + (if l[|l| - 1] == x then 1 else 0)
  }

  /** Number of sends whose link targets `address`. */
  function CountTo(sends: seq<Sent>, address: string): nat
    decreases |sends|
  {
    if sends == [] then 0 else CountTo(sends[..|sends| - 1], address) + (if sends[|sends| - 1].address == address then 1 else 0)
  }

  /** Fan-out sends the i-th subscriber the i-th message, on that client's sender. */
  lemma {:induction false} FanOutExact(clients: seq<ClientId>, senders: map<ClientId, LinkId>, m: AmqpMessage)
    requires forall i :: 0 <= i < |clients| ==> clients[i] in senders
    ensures |FanOut(clients, senders, m)| == |clients|
    ensures forall i :: 0 <= i < |clients| ==>
      FanOut(clients, senders, m)[i] == Sent(senders[clients[i]], ClientAddress(clients[i]), m)
    decreases |clients|
  {
    if clients != [] {
      FanOutExact(clients[..|clients| - 1], senders, m);
    }
  }

  lemma ClientAddressInjective(a: ClientId, b: ClientId)
    ensures ClientAddress(a) == ClientAddress(b) <==> a == b
  {
    if ClientAddress(a) == ClientAddress(b) {
      assert a == ClientAddress(a)[9..];
      assert b == ClientAddress(b)[9..];
    }
  }

  /** A client subscribed k times gets exactly k copies of each publish. */
  lemma {:induction false} FanOutCount(clients: seq<ClientId>, senders: map<ClientId, LinkId>, m: AmqpMessage, x: ClientId)
    requires forall i :: 0 <= i < |clients| ==> clients[i] in senders
    ensures CountTo(FanOut(clients, senders, m), ClientAddress(x)) == Count(clients, x)
    decreases |clients|
  {
    if clients != [] {
      var p := clients[..|clients| - 1];
      var last := clients[|clients| - 1];
      FanOutCount(p, senders, m, x);
      var sends := FanOut(clients, senders, m);
      assert sends[..|sends| - 1] == FanOut(p, senders, m);
      ClientAddressInjective(last, x);
    }
  }

  /** Every retained message is stored under its own topic. */
  ghost predicate RetainedByTopic(retained: map<Topic, PublishMessage>)
  {
    forall t :: t in retained ==> retained[t].topic == t
  }

  /** The replay after a subscribe: one send per entry whose topic has a retained message. */
  function Replay(entries: seq<TopicSubscription>, retained: map<Topic, PublishMessage>, link: LinkId, address: string): seq<Sent>
    decreases |entries|
  {
    if entries == [] then []
    else
      var t := entries[|entries| - 1].topic;
      Replay(entries[..|entries| - 1], retained, link, address)
        + (if t in retained then [Sent(link, address, ToAmqp(retained[t]))] else [])
  }

  /** Number of sends carrying a publish for topic `t`. */
  function CountTopicSent(sends: seq<Sent>, t: Topic): nat
    decreases |sends|
  {
    if sends == [] then 0
    else CountTopicSent(sends[..|sends| - 1], t) + (if sends[|sends| - 1].message.content.topic == t then 1 else 0)
  }

  /**
   * Every replayed send goes on the subscriber's link and carries, encoded
   * unchanged, the retained message of the topic it names.
   */
  lemma {:induction false} ReplaySendsRetained(entries: seq<TopicSubscription>, retained: map<Topic, PublishMessage>, link: LinkId, address: string)
    ensures forall s :: s in Replay(entries, retained, link, address) ==>
      s.link == link && s.address == address && s.message.subject == Wrappers.Some(PUBLISH_SUBJECT)
      && exists t :: t in retained && s.message.content == retained[t] && t in TopicsOf(entries)
    decreases |entries|
  {
    if entries != [] {
      var p := entries[..|entries| - 1];
      ReplaySendsRetained(p, retained, link, address);
    }
  }

  /**
   * Each entry naming a topic with a retained message gets exactly one copy
   * of it; a topic without a retained message gets none.
   */
  lemma {:induction false} ReplayCount(entries: seq<TopicSubscription>, retained: map<Topic, PublishMessage>, link: LinkId, address: string, t: Topic)
    requires RetainedByTopic(retained)
    ensures CountTopicSent(Replay(entries, retained, link, address), t) == if t in retained then CountTopic(entries, t) else 0
    decreases |entries|
  {
    if entries != [] {
      var p := entries[..|entries| - 1];
      var last := entries[|entries| - 1].topic;
      ReplayCount(p, retained, link, address, t);
      var extra := if last in retained then [Sent(link, address, ToAmqp(retained[last]))] else [];
      var r := Replay(entries, retained, link, address);
      assert r == Replay(p, retained, link, address) + extra;
      CountTopicSentAppend(Replay(p, retained, link, address), extra, t);
      assert CountTopicSent(extra, t) == if last in retained && last == t then 1 else 0 by {
        if last in retained {
          assert extra[..0] == [];
          assert extra[0].message.content.topic == last;
        }
      }
    }
  }

  lemma {:induction false} CountTopicSentAppend(a: seq<Sent>, b: seq<Sent>, t: Topic)
    requires |b| <= 1
    ensures CountTopicSent(a + b, t) == CountTopicSent(a, t) + CountTopicSent(b, t)
  {
    if |b| == 1 {
      assert (a + b)[..|a + b| - 1] == a;
      assert b[..0] == [];
    } else {
      assert a + b == a;
    }
  }

  /** With no entry naming a retained topic, nothing is replayed. */
  lemma {:induction false} ReplayNoHits(entries: seq<TopicSubscription>, retained: map<Topic, PublishMessage>, link: LinkId, address: string)
    requires forall i :: 0 <= i < |entries| ==> entries[i].topic !in retained
    ensures Replay(entries, retained, link, address) == []
    decreases |entries|
  {
    if entries != [] {
      ReplayNoHits(entries[..|entries| - 1], retained, link, address);
    }
  }

  /** The publish a will turns into: id 1, not a duplicate, the will's qos, retain flag, topic and payload. */
  function WillPublish(w: WillMessage): PublishMessage
  {
    PublishMessage(1, w.qos, false, w.isRetain, w.topic, w.payload)
  }

  // ---------------------------------------------------------------------
  // State

  ghost predicate LinksBelow<K>(m: map<K, LinkId>, n: LinkId)
  {
    forall k :: k in m ==> m[k] < n
  }

  /** `m'` keeps every link of `m` and its new links were created in [lo, hi). */
  ghost predicate Extends<K>(m: map<K, LinkId>, m': map<K, LinkId>, lo: LinkId, hi: LinkId)
  {
    && m.Keys <= m'.Keys
    && (forall k :: k in m ==> m'[k] == m[k])
    && (forall k :: k in m' && k !in m ==> lo <= m'[k] < hi)
  }

  /** `m'` is `m` with links for the keys `added`, each made in [lo, hi) unless it already existed. */
  ghost predicate MapGrew<K>(m: map<K, LinkId>, m': map<K, LinkId>, added: set<K>, lo: LinkId, hi: LinkId)
  {
    m'.Keys == m.Keys + added && Extends(m, m', lo, hi)
  }

  lemma MapGrewTrans<K>(a: map<K, LinkId>, b: map<K, LinkId>, c: map<K, LinkId>, x: set<K>, y: set<K>,
                        lo: LinkId, mid: LinkId, hi: LinkId)
    requires lo <= mid <= hi
    requires MapGrew(a, b, x, lo, mid) && MapGrew(b, c, y, mid, hi)
    ensures MapGrew(a, c, x + y, lo, hi)
  {
  }

  /** The link registries and subscriber lists of a broker, as one value. */
  datatype LinkState = LinkState(
    receivers: map<Topic, LinkId>,
    senders: map<ClientId, LinkId>,
    pubrel: map<ClientId, LinkId>,
    next: LinkId,
    subscriptions: map<Topic, seq<ClientId>>)

  /** Every link of `a` is below its link counter. */
  ghost predicate StateLinksBelow(a: LinkState)
  {
    LinksBelow(a.receivers, a.next) && LinksBelow(a.senders, a.next) && LinksBelow(a.pubrel, a.next)
  }

  /**
   * `b` is `a` after client `c` subscribed to `entries`: the lists gained the
   * client once per entry, each entry's topic has a receiver, the client has
   * a sender and a pubrel receiver (if there was any entry), no link was
   * replaced, and every new link was made between the two counters.
   */
  ghost predicate Grew(a: LinkState, b: LinkState, entries: seq<TopicSubscription>, c: ClientId)
  {
    var clients := if entries == [] then {} else {c};
    && a.next <= b.next
    && b.subscriptions == Subscribed(a.subscriptions, entries, c)
    && MapGrew(a.receivers, b.receivers, TopicsOf(entries), a.next, b.next)
    && MapGrew(a.senders, b.senders, clients, a.next, b.next)
    && MapGrew(a.pubrel, b.pubrel, clients, a.next, b.next)
  }

  /** One entry of a subscribe, topic `t` and client `c`, takes `a` to `b`. */
  ghost predicate EntryStep(a: LinkState, b: LinkState, t: Topic, c: ClientId)
  {
    && a.next <= b.next
    && b.subscriptions == a.subscriptions[t := ListOf(a.subscriptions, t) + [c]]
    && MapGrew(a.receivers, b.receivers, {t}, a.next, b.next)
    && MapGrew(a.senders, b.senders, {c}, a.next, b.next)
    && MapGrew(a.pubrel, b.pubrel, {c}, a.next, b.next)
  }

  lemma GrewNothing(a: LinkState, c: ClientId)
    ensures Grew(a, a, [], c)
  {
  }

  /** Subscribing to one more entry extends a subscribe to a prefix by one step. */
  lemma GrewStep(a: LinkState, b: LinkState, b': LinkState, entries: seq<TopicSubscription>, i: nat, c: ClientId)
    requires i < |entries|
    requires Grew(a, b, entries[..i], c) && EntryStep(b, b', entries[i].topic, c)
    ensures Grew(a, b', entries[..i + 1], c)
  {
    SubscribedStep(a.subscriptions, entries, i, c);
    var clients := if i == 0 then {} else {c};
    assert clients + {c} == {c};
    MapGrewTrans(a.receivers, b.receivers, b'.receivers, TopicsOf(entries[..i]), {entries[i].topic}, a.next, b.next, b'.next);
    MapGrewTrans(a.senders, b.senders, b'.senders, clients, {c}, a.next, b.next, b'.next);
    MapGrewTrans(a.pubrel, b.pubrel, b'.pubrel, clients, {c}, a.next, b.next, b'.next);
  }

  /** Growing keeps every link below the counter. */
  lemma GrewBelow(a: LinkState, b: LinkState, entries: seq<TopicSubscription>, c: ClientId)
    requires StateLinksBelow(a) && Grew(a, b, entries, c)
    ensures StateLinksBelow(b)
  {
  }

  /** The shared local map through which request producers hand over request objects. */
  class LocalMap {
    var entries: map<string, SharedObject>

    constructor (entries: map<string, SharedObject>)
      ensures this.entries == entries
    {
      this.entries := entries;
    }

    /** Take the object stored under `key`, if any, and remove it. */
    method Remove(key: string) returns (v: Wrappers.Option<SharedObject>)
      modifies this
      ensures entries == old(entries) - {key}
      ensures v == if key in old(entries) then Wrappers.Some(old(entries)[key]) else Wrappers.None
    {
      v := if key in entries then Wrappers.Some(entries[key]) else Wrappers.None;
      entries := entries - {key};
    }
  }

  class MockBroker {
    /** topic -> receiver */
    var receivers: map<Topic, LinkId>
    /** client id -> sender to ClientAddress(client id) */
    var senders: map<ClientId, LinkId>
    /** topic -> subscriber list */
    var subscriptions: map<Topic, seq<ClientId>>
    /** topic -> retained message */
    var retained: map<Topic, PublishMessage>
    /** receiver link name -> will */
    var wills: map<LinkName, WillMessage>
    /** client id -> receiver on PubrelAddress(client id) */
    var receiversPubrel: map<ClientId, LinkId>
    /** Number of links created so far; the next link gets this identifier. */
    var nextLink: LinkId
    /** Every message sent, in order. */
    var outbox: seq<Sent>

    ghost predicate Valid()
      reads this
    {
      && SubscriptionsConsistent(subscriptions, receivers.Keys, senders.Keys)
      && receiversPubrel.Keys == senders.Keys
      && RetainedByTopic(retained)
      && LinksBelow(receivers, nextLink)
      && LinksBelow(senders, nextLink)
      && LinksBelow(receiversPubrel, nextLink)
    }

    /** A broker whose connection is open and whose pre-configured topics have receivers. */
    constructor ()
      ensures Valid()
      ensures receivers == map["my_topic" := 0, "will" := 1] && nextLink == 2
      ensures senders == map[] && subscriptions == map[] && retained == map[]
      ensures wills == map[] && receiversPubrel == map[] && outbox == []
    {
      receivers := map["my_topic" := 0, "will" := 1];
      nextLink := 2;
      senders := map[];
      subscriptions := map[];
      retained := map[];
      wills := map[];
      receiversPubrel := map[];
      outbox := [];
    }

    ghost function State(): LinkState
      reads this
    {
      LinkState(receivers, senders, receiversPubrel, nextLink, subscriptions)
    }

    /** The whole change a subscribe makes: lists, links, and nothing else. */
    twostate predicate SubscribeEffect(msg: SubscribeMessage)
      reads this
    {
      && Grew(old(State()), State(), msg.topicSubscriptions, msg.clientId)
      && retained == old(retained) && wills == old(wills) && outbox == old(outbox)
    }

    /** Open a receiver for topic `t` unless it has one. */
    method EnsureTopicReceiver(t: Topic)
      modifies this`receivers, this`nextLink
      ensures old(nextLink) <= nextLink
      ensures MapGrew(old(receivers), receivers, {t}, old(nextLink), nextLink)
    {
      if t !in receivers {
        receivers := receivers[t := nextLink];
        nextLink := nextLink + 1;
      }
    }

    /** Open the sender to client `c` and its pubrel receiver, each unless it exists. */
    method EnsureClientLinks(c: ClientId)
      modifies this`senders, this`receiversPubrel, this`nextLink
      ensures old(nextLink) <= nextLink
      ensures MapGrew(old(senders), senders, {c}, old(nextLink), nextLink)
      ensures MapGrew(old(receiversPubrel), receiversPubrel, {c}, old(nextLink), nextLink)
    {
      if c !in senders {
        senders := senders[c := nextLink];
        nextLink := nextLink + 1;
      }
      if c !in receiversPubrel {
        receiversPubrel := receiversPubrel[c := nextLink];
        nextLink := nextLink + 1;
      }
    }

    /** Append client `c` to the subscriber list of topic `t`, creating the list if absent. */
    method AddSubscription(t: Topic, c: ClientId)
      modifies this`subscriptions
      ensures subscriptions == old(subscriptions)[t := ListOf(old(subscriptions), t) + [c]]
    {
      if t !in subscriptions {
        subscriptions := subscriptions[t := []];
      }
      subscriptions := subscriptions[t := subscriptions[t] + [c]];
    }

    /** One entry of a subscribe: make sure the links exist, then record the subscription. */
    method SubscribeEntry(t: Topic, c: ClientId)
      modifies this`receivers, this`senders, this`receiversPubrel, this`nextLink, this`subscriptions
      ensures EntryStep(old(State()), State(), t, c)
    {
      EnsureTopicReceiver(t);
      ghost var n1 := nextLink;
      ghost var (s1, p1) := (senders, receiversPubrel);
      EnsureClientLinks(c);
      MapGrewTrans(old(receivers), receivers, receivers, {t}, {}, old(nextLink), n1, nextLink);
      MapGrewTrans(old(senders), s1, senders, {}, {c}, old(nextLink), n1, nextLink);
      MapGrewTrans(old(receiversPubrel), p1, receiversPubrel, {}, {c}, old(nextLink), n1, nextLink);
      AddSubscription(t, c);
    }

    /** Process the entries of a subscription in order, granting each its requested level. */
    method SubscribeEntries(entries: seq<TopicSubscription>, c: ClientId) returns (granted: seq<MqttQos>)
      modifies this`receivers, this`senders, this`receiversPubrel, this`nextLink, this`subscriptions
      ensures granted == Requested(entries)
      ensures Grew(old(State()), State(), entries, c)
    {
      ghost var start := State();
      GrewNothing(start, c);
      granted := [];
      var i := 0;
      while i < |entries|
        invariant 0 <= i <= |entries|
        invariant granted == Requested(entries[..i])
        invariant Grew(start, State(), entries[..i], c)
      {
        ghost var before := State();
        SubscribeEntry(entries[i].topic, c);
        GrewStep(start, before, State(), entries, i, c);
        granted := granted + [entries[i].qos];
        SubscribedStep(start.subscriptions, entries, i, c);
        i := i + 1;
      }
      assert entries[..i] == entries;
    }

    /** Handle a subscription request; every requested level is granted. */
    method Subscribe(msg: SubscribeMessage) returns (granted: seq<MqttQos>)
      requires Valid()
      modifies this
      ensures Valid()
      ensures GrantsRequested(granted, msg.topicSubscriptions)
      ensures SubscribeEffect(msg)
    {
      var entries, c := msg.topicSubscriptions, msg.clientId;
      granted := SubscribeEntries(entries, c);
      RequestedGrants(entries);
      GrewBelow(old(State()), State(), entries, c);
      assert SubscriptionsConsistent(old(subscriptions), receivers.Keys, senders.Keys);
      SubscribeKeepsConsistent(old(subscriptions), entries, c, receivers.Keys, senders.Keys);
    }

    /** Handle an unsubscription request; `complete` is false when a named topic had no list. */
    method Unsubscribe(msg: UnsubscribeMessage) returns (complete: bool)
      requires Valid()
      modifies this
      ensures Valid()
      ensures subscriptions == Unsubscribed(old(subscriptions), msg.topics, msg.clientId).subscriptions
      ensures complete == Unsubscribed(old(subscriptions), msg.topics, msg.clientId).complete
      ensures receivers == old(receivers) && senders == old(senders) && receiversPubrel == old(receiversPubrel)
      ensures retained == old(retained) && wills == old(wills) && nextLink == old(nextLink) && outbox == old(outbox)
    {
      var topics, c := msg.topics, msg.clientId;
      UnsubscribeKeepsConsistent(subscriptions, topics, c, receivers.Keys, senders.Keys);
      var i := 0;
      while i < |topics|
        invariant 0 <= i <= |topics|
        invariant Unsubscribed(subscriptions, topics[i..], c) == Unsubscribed(old(subscriptions), topics, c)
        invariant receivers == old(receivers) && senders == old(senders) && receiversPubrel == old(receiversPubrel)
        invariant retained == old(retained) && wills == old(wills) && nextLink == old(nextLink) && outbox == old(outbox)
      {
        var t := topics[i];
        assert topics[i..][0] == t && topics[i..][1..] == topics[i + 1..];
        if t !in subscriptions {
          return false;
        }
        ghost var before := subscriptions;
        subscriptions := subscriptions[t := RemoveFirst(subscriptions[t], c)];
        if |subscriptions[t]| == 0 {
          subscriptions := subscriptions - {t};
        }
        assert subscriptions == RemoveSubscriber(before, t, c);
        i := i + 1;
      }
      complete := true;
    }

    /**
     * Handle a delivery on one of the broker's receivers. A publish updates
     * the retained map when its retain flag is set and is forwarded to every
     * subscriber of the receiving link's address; a pubrel goes back to the
     * client owning the pubrel link; any other subject is ignored.
     */
    method MessageHandler(receiver: InboundLink, message: AmqpMessage) returns (accepted: bool)
      requires Valid()
      requires message.subject == Wrappers.Some(PUBREL_SUBJECT) ==> receiver.PubrelLink? && receiver.clientId in receiversPubrel
      modifies this
      ensures Valid()
      ensures receivers == old(receivers) && senders == old(senders) && receiversPubrel == old(receiversPubrel)
      ensures subscriptions == old(subscriptions) && wills == old(wills) && nextLink == old(nextLink)
      ensures accepted <==> message.subject == Wrappers.Some(PUBREL_SUBJECT) || message.subject == Wrappers.Some(PUBLISH_SUBJECT)
      ensures retained == if message.subject == Wrappers.Some(PUBLISH_SUBJECT) && message.content.isRetain
                          then old(retained)[message.content.topic := message.content]
                          else old(retained)
      ensures outbox == old(outbox) +
        if message.subject == Wrappers.Some(PUBREL_SUBJECT) then [SendTo(senders, receiver.clientId, message)]
        else if message.subject == Wrappers.Some(PUBLISH_SUBJECT) then FanOut(ListOf(subscriptions, Address(receiver)), senders, message)
        else []
    {
      accepted := false;
      if message.subject.Some? {
        var subject := message.subject.value;
        if subject == PUBREL_SUBJECT {
          accepted := true;
          var clientId := receiver.clientId;
          outbox := outbox + [SendTo(senders, clientId, message)];
        } else if subject == PUBLISH_SUBJECT {
          var topic := Address(receiver);
          var publish := message.content;
          if publish.isRetain {
            retained := retained[publish.topic := publish];
          }
          accepted := true;
          if topic in subscriptions {
            SendToSubscribers(subscriptions[topic], message);
          }
        }
      }
    }

    /** Send the message to each subscriber in list order, on that client's sender. */
    method SendToSubscribers(subscribers: seq<ClientId>, message: AmqpMessage)
      requires forall i :: 0 <= i < |subscribers| ==> subscribers[i] in senders
      modifies this`outbox
      ensures outbox == old(outbox) + FanOut(subscribers, senders, message)
    {
      var i := 0;
      while i < |subscribers|
        invariant 0 <= i <= |subscribers|
        invariant outbox == old(outbox) + FanOut(subscribers[..i], senders, message)
      {
        outbox := outbox + [SendTo(senders, subscribers[i], message)];
        assert subscribers[..i + 1][..i] == subscribers[..i];
        i := i + 1;
      }
      assert subscribers[..i] == subscribers;
    }

    /**
     * Consumer of the "subscribe" address: take the request object under
     * `key`; when it is a subscribe request, subscribe and reply with the
     * granted levels. `request` is the request the reply callback keeps.
     */
    method OnSubscribeRequest(shared: LocalMap, key: string) returns (reply: Wrappers.Option<Reply>, request: Wrappers.Option<SubscribeMessage>)
      requires Valid()
      modifies this, shared
      ensures Valid()
      ensures shared.entries == old(shared.entries) - {key}
      ensures request == if key in old(shared.entries) && old(shared.entries)[key].SubscribeData?
                         then Wrappers.Some(old(shared.entries)[key].subscribe) else Wrappers.None
      ensures request.Some? ==> SubscribeEffect(request.value)
                                && reply.Some? && reply.value.GrantedQos?
                                && GrantsRequested(reply.value.levels, request.value.topicSubscriptions)
      ensures request.None? ==> reply == Wrappers.None && unchanged(this)
    {
      var obj := shared.Remove(key);
      reply, request := Wrappers.None, Wrappers.None;
      if obj.Some? && obj.value.SubscribeData? {
        var msg := obj.value.subscribe;
        var granted := Subscribe(msg);
        reply, request := Wrappers.Some(GrantedQos(granted)), Wrappers.Some(msg);
      }
    }

    /**
     * The reply callback of a subscribe: once the reply has gone through,
     * replay to the client the retained message of each entry's topic.
     */
    method OnSubscribeReplied(msg: SubscribeMessage, replySucceeded: bool)
      requires Valid()
      requires replySucceeded && (exists i :: 0 <= i < |msg.topicSubscriptions| && msg.topicSubscriptions[i].topic in retained)
               ==> msg.clientId in senders
      modifies this
      ensures Valid()
      ensures outbox == old(outbox) +
        if replySucceeded && msg.clientId in senders
        then Replay(msg.topicSubscriptions, retained, senders[msg.clientId], ClientAddress(msg.clientId))
        else []
      ensures receivers == old(receivers) && senders == old(senders) && receiversPubrel == old(receiversPubrel)
      ensures subscriptions == old(subscriptions) && retained == old(retained)
      ensures wills == old(wills) && nextLink == old(nextLink)
    {
      var entries, c := msg.topicSubscriptions, msg.clientId;
      ghost var link := if c in senders then senders[c] else 0;
      if replySucceeded {
        if |retained| > 0 {
          var i := 0;
          while i < |entries|
            invariant 0 <= i <= |entries|
            invariant outbox == old(outbox) + Replay(entries[..i], retained, link, ClientAddress(c))
            invariant unchanged(this`receivers, this`senders, this`receiversPubrel, this`subscriptions)
            invariant unchanged(this`retained, this`wills, this`nextLink)
          {
            var t := entries[i].topic;
            if t in retained {
              outbox := outbox + [SendTo(senders, c, ToAmqp(retained[t]))];
            }
            assert entries[..i + 1][..i] == entries[..i];
            i := i + 1;
          }
          assert entries[..i] == entries;
          if c !in senders {
            ReplayNoHits(entries, retained, link, ClientAddress(c));
          }
        } else {
          ReplayNoHits(entries, retained, link, ClientAddress(c));
        }
      }
    }

    /**
     * Consumer of the "unsubscribe" address: take the request object under
     * `key`; when it is an unsubscribe request, unsubscribe and reply with an
     * empty body. An unsubscribe stopped by a missing topic sends no reply.
     */
    method OnUnsubscribeRequest(shared: LocalMap, key: string) returns (reply: Wrappers.Option<Reply>)
      requires Valid()
      modifies this, shared
      ensures Valid()
      ensures shared.entries == old(shared.entries) - {key}
      ensures if key in old(shared.entries) && old(shared.entries)[key].UnsubscribeData?
              then
                var m := old(shared.entries)[key].unsubscribe;
                var r := Unsubscribed(old(subscriptions), m.topics, m.clientId);
                && subscriptions == r.subscriptions
                && reply == (if r.complete then Wrappers.Some(EmptyReply) else Wrappers.None)
                && receivers == old(receivers) && senders == old(senders) && receiversPubrel == old(receiversPubrel)
                && retained == old(retained) && wills == old(wills) && nextLink == old(nextLink) && outbox == old(outbox)
              else reply == Wrappers.None && unchanged(this)
    {
      var obj := shared.Remove(key);
      reply := Wrappers.None;
      if obj.Some? && obj.value.UnsubscribeData? {
        var complete := Unsubscribe(obj.value.unsubscribe);
        if complete {
          reply := Wrappers.Some(EmptyReply);
        }
      }
    }

    /** will-add: store the will handed over under the link name and reply. */
    method WillAdd(shared: LocalMap, linkName: LinkName) returns (reply: Wrappers.Option<Reply>)
      requires Valid()
      modifies this, shared
      ensures Valid()
      ensures shared.entries == old(shared.entries) - {linkName}
      ensures if linkName in old(shared.entries) && old(shared.entries)[linkName].WillData?
              then wills == old(wills)[linkName := old(shared.entries)[linkName].will] && reply == Wrappers.Some(EmptyReply)
              else wills == old(wills) && reply == Wrappers.None
      ensures receivers == old(receivers) && senders == old(senders) && receiversPubrel == old(receiversPubrel)
      ensures subscriptions == old(subscriptions) && retained == old(retained)
      ensures nextLink == old(nextLink) && outbox == old(outbox)
    {
      var obj := shared.Remove(linkName);
      reply := Wrappers.None;
      if obj.Some? && obj.value.WillData? {
        wills := wills[linkName := obj.value.will];
        reply := Wrappers.Some(EmptyReply);
      }
    }

    /** will-clear: drop the will of the link name; reply only if there was one. */
    method WillClear(linkName: LinkName) returns (reply: Wrappers.Option<Reply>)
      requires Valid()
      modifies this
      ensures Valid()
      ensures wills == old(wills) - {linkName}
      ensures reply == if linkName in old(wills) then Wrappers.Some(EmptyReply) else Wrappers.None
      ensures receivers == old(receivers) && senders == old(senders) && receiversPubrel == old(receiversPubrel)
      ensures subscriptions == old(subscriptions) && retained == old(retained)
      ensures nextLink == old(nextLink) && outbox == old(outbox)
    {
      reply := Wrappers.None;
      if linkName in wills {
        wills := wills - {linkName};
        reply := Wrappers.Some(EmptyReply);
      }
    }

    /**
     * will-delivery: publish the will of the link name, if there is one, on a
     * new sender to the will's topic, then reply true; reply false otherwise.
     * The will stays registered.
     */
    method WillDelivery(linkName: LinkName) returns (reply: Wrappers.Option<Reply>)
      requires Valid()
      modifies this
      ensures Valid()
      ensures wills == old(wills)
      ensures if linkName in old(wills)
              then
                && outbox == old(outbox) + [Sent(old(nextLink), old(wills)[linkName].topic, ToAmqp(WillPublish(old(wills)[linkName])))]
                && nextLink == old(nextLink) + 1
                && reply == Wrappers.Some(WillPublished(true))
              else outbox == old(outbox) && nextLink == old(nextLink) && reply == Wrappers.Some(WillPublished(false))
      ensures receivers == old(receivers) && senders == old(senders) && receiversPubrel == old(receiversPubrel)
      ensures subscriptions == old(subscriptions) && retained == old(retained)
    {
      if linkName in wills {
        var will := wills[linkName];
        var publish := WillPublish(will);
        var sender := nextLink;
        nextLink := nextLink + 1;
        outbox := outbox + [Sent(sender, publish.topic, ToAmqp(publish))];
        reply := Wrappers.Some(WillPublished(true));
      } else {
        reply := Wrappers.Some(WillPublished(false));
      }
    }

    /** Consumer of the "will" address: dispatch on the will-action header. */
    method OnWillRequest(action: string, shared: LocalMap, linkName: LinkName) returns (reply: Wrappers.Option<Reply>)
      requires Valid()
      modifies this, shared
      ensures Valid()
      ensures action == WILL_ACTION_ADD ==>
        && shared.entries == old(shared.entries) - {linkName}
        && if linkName in old(shared.entries) && old(shared.entries)[linkName].WillData?
           then wills == old(wills)[linkName := old(shared.entries)[linkName].will] && reply == Wrappers.Some(EmptyReply)
           else wills == old(wills) && reply == Wrappers.None
      ensures action == WILL_ACTION_CLEAR ==>
        && shared.entries == old(shared.entries)
        && wills == old(wills) - {linkName}
        && reply == (if linkName in old(wills) then Wrappers.Some(EmptyReply) else Wrappers.None)
      ensures action == WILL_ACTION_DELIVERY ==>
        && shared.entries == old(shared.entries)
        && wills == old(wills)
        && reply == Wrappers.Some(WillPublished(linkName in old(wills)))
        && nextLink == old(nextLink) + (if linkName in old(wills) then 1 else 0)
        && outbox == old(outbox) +
             if linkName in old(wills)
             then [Sent(old(nextLink), old(wills)[linkName].topic, ToAmqp(WillPublish(old(wills)[linkName])))]
             else []
      ensures action !in {WILL_ACTION_ADD, WILL_ACTION_CLEAR, WILL_ACTION_DELIVERY} ==>
        reply == Wrappers.None && unchanged(this) && unchanged(shared)
      ensures action != WILL_ACTION_DELIVERY ==> outbox == old(outbox) && nextLink == old(nextLink)
      ensures receivers == old(receivers) && senders == old(senders) && receiversPubrel == old(receiversPubrel)
      ensures subscriptions == old(subscriptions) && retained == old(retained)
    {
      reply := Wrappers.None;
      if action == WILL_ACTION_ADD {
        reply := WillAdd(shared, linkName);
      } else if action == WILL_ACTION_CLEAR {
        reply := WillClear(linkName);
      } else if action == WILL_ACTION_DELIVERY {
        reply := WillDelivery(linkName);
      }
    }
  }

  // ---------------------------------------------------------------------
  // Scenarios

  /**
   * A will registered for link "link-7" is published on every delivery
   * request until it is cleared; afterwards delivery reports false.
   */
  method WillScenario() returns (added: Wrappers.Option<Reply>, first: Wrappers.Option<Reply>, second: Wrappers.Option<Reply>,
                                 cleared: Wrappers.Option<Reply>, last: Wrappers.Option<Reply>, sends: seq<Sent>)
    ensures added == Wrappers.Some(EmptyReply) && cleared == Wrappers.Some(EmptyReply)
    ensures first == Wrappers.Some(WillPublished(true)) && second == Wrappers.Some(WillPublished(true))
    ensures last == Wrappers.Some(WillPublished(false))
    ensures |sends| == 2 && sends[0].link != sends[1].link
    ensures forall i :: 0 <= i < 2 ==> sends[i].address == "lwt" && sends[i].message.content.payload == [0x62, 0x79, 0x65]
  {
    var broker := new MockBroker();
    var will := WillMessage(false, "lwt", AtLeastOnce, [0x62, 0x79, 0x65]);
    var shared := new LocalMap(map["link-7" := WillData(will)]);
    added := broker.OnWillRequest(WILL_ACTION_ADD, shared, "link-7");
    first := broker.OnWillRequest(WILL_ACTION_DELIVERY, shared, "link-7");
    second := broker.OnWillRequest(WILL_ACTION_DELIVERY, shared, "link-7");
    cleared := broker.OnWillRequest(WILL_ACTION_CLEAR, shared, "link-7");
    last := broker.OnWillRequest(WILL_ACTION_DELIVERY, shared, "link-7");
    sends := broker.outbox;
  }

  /** A client that subscribes to a topic twice gets every publish on it twice. */
  method DuplicateSubscribeScenario(p: PublishMessage) returns (sends: seq<Sent>)
    ensures |sends| == 2 && sends[0] == sends[1]
    ensures sends[0].address == ClientAddress("c1") && sends[0].message == AmqpMessage(Wrappers.Some(PUBLISH_SUBJECT), p)
  {
    var broker := new MockBroker();
    var request := SubscribeMessage("c1", [TopicSubscription("t", AtLeastOnce)]);
    var e := request.topicSubscriptions[0];
    var _ := broker.Subscribe(request);
    SubscribedOne(map[], e, "c1");
    assert ListOf(map[], "t") + ["c1"] == ["c1"];
    assert broker.subscriptions == map["t" := ["c1"]];
    var _ := broker.Subscribe(request);
    SubscribedOne(map["t" := ["c1"]], e, "c1");
    assert ListOf(map["t" := ["c1"]], "t") + ["c1"] == ["c1", "c1"];
    assert broker.subscriptions == map["t" := ["c1", "c1"]];
    var _ := broker.MessageHandler(TopicLink("t"), AmqpMessage(Wrappers.Some(PUBLISH_SUBJECT), p));
    sends := broker.outbox;
  }

  /**
   * A retained publish for topic "a", arriving on the pre-configured
   * "my_topic" receiver, is replayed once to a client that subscribes to "a"
   * and "b" afterwards, once the subscribe reply has gone through.
   */
  method RetainedReplayScenario(payload: seq<bv8>) returns (granted: seq<MqttQos>, replayed: seq<Sent>)
    ensures granted == [AtLeastOnce, AtLeastOnce]
    ensures |replayed| == 1 && replayed[0].address == ClientAddress("c1")
    ensures replayed[0].message == ToAmqp(PublishMessage(1, AtLeastOnce, false, true, "a", payload))
  {
    var broker := new MockBroker();
    var m := PublishMessage(1, AtLeastOnce, false, true, "a", payload);
    var _ := broker.MessageHandler(TopicLink("my_topic"), ToAmqp(m));
    assert broker.retained == map["a" := m];
    var entries := [TopicSubscription("a", AtLeastOnce), TopicSubscription("b", AtLeastOnce)];
    var request := SubscribeMessage("c1", entries);
    granted := broker.Subscribe(request);
    assert entries[..1] == [entries[0]] && entries[..0] == [];
    assert [entries[0]][..0] == [];
    var before := broker.outbox;
    broker.OnSubscribeReplied(request, true);
    replayed := broker.outbox[|before|..];
  }

  /** Two subscribers of "x" each get a plain publish once; nothing is retained. */
  method TwoClientsScenario(m: PublishMessage) returns (sends: seq<Sent>, retainedAfter: map<Topic, PublishMessage>)
    requires !m.isRetain
    ensures |sends| == 2
    ensures sends[0].address == ClientAddress("c1") && sends[1].address == ClientAddress("c2")
    ensures sends[0].message == ToAmqp(m) && sends[1].message == ToAmqp(m)
    ensures retainedAfter == map[]
  {
    var broker := new MockBroker();
    var e := TopicSubscription("x", AtLeastOnce);
    var _ := broker.Subscribe(SubscribeMessage("c1", [e]));
    SubscribedOne(map[], e, "c1");
    assert ListOf(map[], "x") + ["c1"] == ["c1"];
    var _ := broker.Subscribe(SubscribeMessage("c2", [e]));
    SubscribedOne(map["x" := ["c1"]], e, "c2");
    assert ListOf(map["x" := ["c1"]], "x") + ["c2"] == ["c1", "c2"];
    var _ := broker.MessageHandler(TopicLink("x"), ToAmqp(m));
    assert ["c1", "c2"][..1] == ["c1"] && ["c1"][..0] == [];
    sends, retainedAfter := broker.outbox, broker.retained;
  }

  /** Unsubscribing the only subscriber of "x" drops the topic's list but keeps its receiver. */
  method UnsubscribeLastScenario() returns (complete: bool, lists: map<Topic, seq<ClientId>>, receiverTopics: set<Topic>)
    ensures complete && lists == map[] && "x" in receiverTopics
  {
    var broker := new MockBroker();
    var e := TopicSubscription("x", AtLeastOnce);
    var _ := broker.Subscribe(SubscribeMessage("c1", [e]));
    SubscribedOne(map[], e, "c1");
    assert ListOf(map[], "x") + ["c1"] == ["c1"];
    assert TopicsOf([e]) == {"x"} by { assert [e][..0] == []; }
    complete := broker.Unsubscribe(UnsubscribeMessage("c1", ["x"]));
    assert ["x"][1..] == [];
    assert RemoveFirst(["c1"], "c1") == [];
    lists, receiverTopics := broker.subscriptions, broker.receivers.Keys;
  }
}
