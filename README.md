# EnMasse MQTT mock broker and address-space controller, in Dafny

This project models two pieces of EnMasse and proves properties of them.

**The mock MQTT broker** (`mock_broker.dfy`, module `Mqtt`) sits behind the MQTT gateway's subscription and will services. Its state is six maps:
- a receiver per topic;
- a sender per client, to `$mqtt.to.<client>`;
- a pubrel receiver per client, on `$mqtt.<client>.pubrel`;
- a subscriber list per topic;
- a retained message per topic;
- a will per link name.

It does four things:
- It subscribes and unsubscribes clients.
- It routes the AMQP messages that arrive on its receivers. A publish fans out to the subscribers of the receiving link's address, and is retained when its retain flag is set. A pubrel goes back to the client that owns the pubrel link.
- It answers the `subscribe`, `unsubscribe` and `will` event-bus requests. The subscribe, unsubscribe and will-add payloads come from a shared local map; will-clear and will-delivery carry only the link name.
- After a successful subscribe reply, it replays the retained messages.

The broker is a class whose methods update these maps in place. Links are identifiers drawn from a counter, so a link that is kept and a link that is new can both be told apart. Every send is appended to an output log, `outbox`.

**The address-space controller** (`address_space_controller.dfy`, module `AddressSpace`) makes one reconciliation decision. It groups the configured destinations by group name and rejects a group that mixes kinds of destination. It then issues:
- a create for every group that has no cluster and non-empty generated resources;
- a delete for every existing cluster whose id matches no group;
- one status replacement per destination.

Kubernetes enters as inputs: the list of existing clusters and a readiness predicate on group names. The cluster generator is a function parameter. The side effects are returned as a list of actions, or as a validation error.

`wrappers.dfy` holds the `Option` and `Result` types that both modules share.

Two behaviours of the code are worth noting:

- **Will delivery.** A will is published with its duplicate flag false (MockBroker.java:232).
- **Unsubscribe with an unknown topic.** The code dereferences a missing list (MockBroker.java:361), which throws. The model stops at that topic. Removals already made stay, and the handler sends no reply. A topic named twice counts as missing at its second mention when the first mention emptied its list (MockBroker.java:363-364).

## Model

Source paths are relative to the repository root.

| member | source | states |
|---|---|---|
| Mqtt.RequestedGrants | src/test/java/enmasse/mqtt/MockBroker.java:285-349 | the granted list has one level per entry, and it is that entry's requested level, in request order |
| Mqtt.Subscribed | src/test/java/enmasse/mqtt/MockBroker.java:338-343 | the subscriber lists after a client subscribes to each entry in turn: each entry creates its topic's list when absent and appends the client to it |
| Mqtt.SubscribedAppends | src/test/java/enmasse/mqtt/MockBroker.java:338-343 | after a subscribe, every topic's list is its old list followed by the client once per entry naming the topic; duplicates are kept |
| Mqtt.SubscribedKeys | src/test/java/enmasse/mqtt/MockBroker.java:338-341 | a subscribe creates a list for every named topic and removes none |
| Mqtt.CountTopicPositive | src/test/java/enmasse/mqtt/MockBroker.java:287-343 | a topic's list grows if and only if some entry names it |
| Mqtt.DuplicateSubscribeKept | src/test/java/enmasse/mqtt/MockBroker.java:343 | subscribing a client to the same topic twice records it twice |
| Mqtt.SubscribedOne | src/test/java/enmasse/mqtt/MockBroker.java:338-343 | a one-entry subscribe appends the client to that topic's list, which starts empty when absent |
| Mqtt.SubscribeKeepsConsistent | src/test/java/enmasse/mqtt/MockBroker.java:287-343 | once the topics have receivers and the client has links, a subscribe keeps lists non-empty, on topics with receivers, holding known clients |
| Mqtt.RemoveFirst | src/test/java/enmasse/mqtt/MockBroker.java:361 | `List.remove(Object)` on a subscriber list: the first occurrence of the client is dropped, if there is one |
| Mqtt.RemoveFirstAbsent | src/test/java/enmasse/mqtt/MockBroker.java:361 | removing a client not in the list leaves the list unchanged |
| Mqtt.RemoveFirstPresent | src/test/java/enmasse/mqtt/MockBroker.java:361 | removing a client in the list cuts out its first occurrence and nothing else |
| Mqtt.RemoveFirstMultiset | src/test/java/enmasse/mqtt/MockBroker.java:361 | removal takes away one copy of the client, if any, and adds nothing |
| Mqtt.RemoveSubscriber | src/test/java/enmasse/mqtt/MockBroker.java:361-365 | one named topic's removal: the client's first occurrence leaves the topic's list, and a list left empty is removed with its topic |
| Mqtt.Unsubscribed | src/test/java/enmasse/mqtt/MockBroker.java:357-367 | an unsubscribe over the named topics in order: each topic's removal in turn; a topic without a list stops it, keeping earlier removals and marking it incomplete |
| Mqtt.UnsubscribeDistinctTopics | src/test/java/enmasse/mqtt/MockBroker.java:357-367 | with distinct named topics that all have lists, unsubscribe completes; each named list loses the client's first occurrence and disappears when emptied; other lists are kept |
| Mqtt.UnsubscribeRepeatedTopic | src/test/java/enmasse/mqtt/MockBroker.java:359-365 | unsubscribing the only subscriber of "x" from ["x","x"] removes the list at the first mention and stops at the second, so the unsubscribe does not complete |
| Mqtt.UnsubscribeShrinks | src/test/java/enmasse/mqtt/MockBroker.java:357-367 | unsubscribe never adds a topic, and it completes only if every named topic had a list |
| Mqtt.RemoveSubscriberKeepsConsistent | src/test/java/enmasse/mqtt/MockBroker.java:361-365 | removing one subscriber from one topic keeps the subscriber-list invariant |
| Mqtt.UnsubscribeKeepsConsistent | src/test/java/enmasse/mqtt/MockBroker.java:357-367 | a whole unsubscribe keeps the subscriber-list invariant, including when it stops early |
| Mqtt.FanOut | src/test/java/enmasse/mqtt/MockBroker.java:408-415 | the sends of a publish: one per subscriber list entry, in list order, on that client's sender, carrying the message as received |
| Mqtt.FanOutExact | src/test/java/enmasse/mqtt/MockBroker.java:406-415 | a publish makes exactly one send per list entry, in list order, each on that client's sender to its address, carrying the message unchanged |
| Mqtt.ClientAddressInjective | src/test/java/enmasse/mqtt/MockBroker.java:308-316 | two clients share a sender address only if they are the same client |
| Mqtt.FanOutCount | src/test/java/enmasse/mqtt/MockBroker.java:406-415 | a client listed k times under a topic gets exactly k copies of each publish on it |
| Mqtt.Replay | src/test/java/enmasse/mqtt/MockBroker.java:161-172 | the replay after a subscribe: for each entry in order whose topic has a retained message, one send of that message on the client's sender |
| Mqtt.ReplaySendsRetained | src/test/java/enmasse/mqtt/MockBroker.java:159-172 | every replayed send goes on the subscriber's sender and carries, encoded unchanged, the retained message of a subscribed topic |
| Mqtt.ReplayCount | src/test/java/enmasse/mqtt/MockBroker.java:159-172 | a topic with a retained message is replayed once per entry naming it; a topic without one is never replayed |
| Mqtt.ReplayNoHits | src/test/java/enmasse/mqtt/MockBroker.java:161-165 | when no entry names a retained topic, nothing is replayed |
| Mqtt.GrewStep | src/test/java/enmasse/mqtt/MockBroker.java:287-347 | processing one more entry extends the subscribe relation from a prefix of the entries to the next prefix |
| Mqtt.GrewBelow | src/test/java/enmasse/mqtt/MockBroker.java:290-334 | after a subscribe, every link, old or new, is still below the link counter |
| Mqtt.LocalMap.Remove | src/test/java/enmasse/mqtt/MockBroker.java:141 | taking a request object returns what was stored under the key, if anything, and removes the key |
| Mqtt.MockBroker.constructor | src/test/java/enmasse/mqtt/MockBroker.java:91-135 | a started broker has receivers only for the pre-configured topics "my_topic" and "will", and every other map is empty |
| Mqtt.MockBroker.EnsureTopicReceiver | src/test/java/enmasse/mqtt/MockBroker.java:290-304 | the topic has a receiver afterwards; an existing receiver is kept and a new one is fresh |
| Mqtt.MockBroker.EnsureClientLinks | src/test/java/enmasse/mqtt/MockBroker.java:308-335 | the client has a sender and a pubrel receiver afterwards; existing links are kept and new ones are fresh |
| Mqtt.MockBroker.AddSubscription | src/test/java/enmasse/mqtt/MockBroker.java:338-343 | the client is appended to the topic's list, which is created empty when absent |
| Mqtt.MockBroker.SubscribeEntry | src/test/java/enmasse/mqtt/MockBroker.java:290-343 | one entry ensures the three links and appends the client to the topic's list |
| Mqtt.MockBroker.Subscribe | src/test/java/enmasse/mqtt/MockBroker.java:283-350 | grants every requested level in order; lists become the subscribed lists; links are created for missing topics and the client and never replaced; retained, wills and log are untouched; the broker invariant holds |
| Mqtt.MockBroker.SubscribeEntries | src/test/java/enmasse/mqtt/MockBroker.java:287-347 | the entries are processed in order: the granted list is the requested levels, and lists and links grow by exactly the subscribe relation for those entries |
| Mqtt.MockBroker.Unsubscribe | src/test/java/enmasse/mqtt/MockBroker.java:357-367 | the lists become the unsubscribed lists; `complete` is false exactly when the loop reaches a named topic that has no list at that point, including a topic named again after an earlier mention emptied its list; nothing else changes; the invariant holds |
| Mqtt.MockBroker.MessageHandler | src/test/java/enmasse/mqtt/MockBroker.java:369-423 | a pubrel goes to the owning client's sender; a publish is retained under its own topic if flagged, then fanned out to the subscribers of the link's address; any other subject is ignored and not accepted |
| Mqtt.MockBroker.SendToSubscribers | src/test/java/enmasse/mqtt/MockBroker.java:408-415 | the log gains one send per listed subscriber, in list order, on that client's sender, and nothing else changes |
| Mqtt.MockBroker.OnSubscribeRequest | src/test/java/enmasse/mqtt/MockBroker.java:138-156 | the key is consumed; a subscribe request is subscribed and answered with the granted levels; anything else changes nothing and gets no reply |
| Mqtt.MockBroker.OnSubscribeReplied | src/test/java/enmasse/mqtt/MockBroker.java:155-175 | after a successful reply, the retained message of each entry's topic is sent to the client, in entry order; otherwise nothing is sent |
| Mqtt.MockBroker.OnUnsubscribeRequest | src/test/java/enmasse/mqtt/MockBroker.java:180-191 | the key is consumed; an unsubscribe request is applied and gets an empty reply only if it completed; anything else changes nothing |
| Mqtt.MockBroker.WillAdd | src/test/java/enmasse/mqtt/MockBroker.java:200-212 | a will handed over under the link name replaces any will for it and gets an empty reply; anything else gets no reply |
| Mqtt.MockBroker.WillClear | src/test/java/enmasse/mqtt/MockBroker.java:214-222 | the will of the link name is dropped; there is a reply only if there was a will |
| Mqtt.WillPublish | src/test/java/enmasse/mqtt/MockBroker.java:231-232 | the publish a will becomes: message id 1, duplicate flag false, and the will's qos, retain flag, topic and payload |
| Mqtt.MockBroker.WillDelivery | src/test/java/enmasse/mqtt/MockBroker.java:224-253 | a registered will is published once, on a new sender to its topic, with id 1, its qos, retain flag and payload; the reply is true and the will stays; with no will, nothing is sent and the reply is false |
| Mqtt.MockBroker.OnWillRequest | src/test/java/enmasse/mqtt/MockBroker.java:194-256 | the will-action header selects add, clear or delivery with their effects; any other action changes nothing |
| Mqtt.WillScenario | src/test/java/enmasse/mqtt/MockBroker.java:194-256 | add, deliver, deliver, clear, deliver on "link-7" replies empty, true, true, empty, false and sends the payload to "lwt" twice on two different links |
| Mqtt.DuplicateSubscribeScenario | src/test/java/enmasse/mqtt/MockBroker.java:338-415 | a client subscribed twice to a topic gets each publish on it twice |
| Mqtt.RetainedReplayScenario | src/test/java/enmasse/mqtt/MockBroker.java:155-172 | a retained publish for "a", received on the "my_topic" receiver, is replayed exactly once to a later subscriber of ["a","b"], after both levels are granted |
| Mqtt.TwoClientsScenario | src/test/java/enmasse/mqtt/MockBroker.java:398-415 | two subscribers of "x" each get a plain publish once, and nothing is retained |
| Mqtt.UnsubscribeLastScenario | src/test/java/enmasse/mqtt/MockBroker.java:357-367 | unsubscribing the only subscriber drops the topic's list but keeps its receiver |
| AddressSpace.GroupBy | address-controller/lib/src/main/java/enmasse/controller/address/AddressSpaceController.java:36 | the grouping is a partition: each destination is in the group of its own name, and every group is non-empty and holds only destinations of that name |
| AddressSpace.ValidateDestinationGroups | address-controller/lib/src/main/java/enmasse/controller/address/AddressSpaceController.java:58-73 | no error if and only if every group is homogeneous; an error names two destinations of one group that differ in store-and-forward, multicast, flavor or group |
| AddressSpace.Compatible | address-controller/lib/src/main/java/enmasse/controller/address/AddressSpaceController.java:64-67 | two destinations of one group are compatible when they agree on store-and-forward, multicast, flavor and group |
| AddressSpace.ValidGroupingIff | address-controller/lib/src/main/java/enmasse/controller/address/AddressSpaceController.java:58-73 | the grouping is valid if and only if any two destinations with the same group name share store-and-forward, multicast and flavor |
| AddressSpace.BrokerExists | address-controller/lib/src/main/java/enmasse/controller/address/AddressSpaceController.java:87-94 | true if and only if some cluster in the list has the given id |
| AddressSpace.DeletedClusters | address-controller/lib/src/main/java/enmasse/controller/address/AddressSpaceController.java:96-99 | a cluster is selected for deletion if and only if it is in the list and its id matches no group key |
| AddressSpace.KeptClusters | address-controller/lib/src/main/java/enmasse/controller/address/AddressSpaceController.java:96-99 | the clusters the deletion filter passes over are exactly the listed ones whose id is a group key |
| AddressSpace.DeletedKeptSplit | address-controller/lib/src/main/java/enmasse/controller/address/AddressSpaceController.java:96-105 | every existing cluster is either deleted or kept, exactly once |
| AddressSpace.FiltersStep | address-controller/lib/src/main/java/enmasse/controller/address/AddressSpaceController.java:96-99 | the last cluster of a list lands in exactly one of the two filters, appended to that filter of the rest |
| AddressSpace.CreatedGroups | address-controller/lib/src/main/java/enmasse/controller/address/AddressSpaceController.java:76-80 | the group keys that get a cluster: no existing cluster has the key and the generated cluster's resources are not empty |
| AddressSpace.CreateActions | address-controller/lib/src/main/java/enmasse/controller/address/AddressSpaceController.java:79-84 | one create per chosen group, in order, carrying that group's generated resources |
| AddressSpace.DeleteActions | address-controller/lib/src/main/java/enmasse/controller/address/AddressSpaceController.java:100-104 | one delete per selected cluster, in list order, carrying its resources |
| AddressSpace.CreateBrokers | address-controller/lib/src/main/java/enmasse/controller/address/AddressSpaceController.java:75-85 | creates are issued, each once, for exactly the groups with no cluster of their key and non-empty generated resources |
| AddressSpace.CreateActionsCover | address-controller/lib/src/main/java/enmasse/controller/address/AddressSpaceController.java:75-85 | whatever order enumerates the chosen keys once each, its creates number as many as the keys, and each key's Create is among them and nothing else is |
| AddressSpace.DeleteBrokers | address-controller/lib/src/main/java/enmasse/controller/address/AddressSpaceController.java:96-105 | deletes are issued for exactly the clusters selected for deletion, in list order |
| AddressSpace.CreatesAvoidDeletes | address-controller/lib/src/main/java/enmasse/controller/address/AddressSpaceController.java:39-42 | when clusters are named after their group, no create is for an id that exists, and no deleted cluster is the key or the cluster of a created group |
| AddressSpace.ReconcileSettles | address-controller/lib/src/main/java/enmasse/controller/address/AddressSpaceController.java:39-42 | when the generator names each cluster after its group key, and the next cluster list is the kept clusters followed by the generated ones, a second reconciliation creates nothing and deletes nothing |
| AddressSpace.StatusUpdate | address-controller/lib/src/main/java/enmasse/controller/address/AddressSpaceController.java:107-113 | the replacement equals the destination apart from its status, which is ready if and only if the destination is not store-and-forward or its group's cluster is ready |
| AddressSpace.StatusActions | address-controller/lib/src/main/java/enmasse/controller/address/AddressSpaceController.java:44-46 | one status replacement per destination, in iteration order |
| AddressSpace.CheckStatuses | address-controller/lib/src/main/java/enmasse/controller/address/AddressSpaceController.java:44-46 | every destination gets exactly one status replacement, and nothing else is issued |
| AddressSpace.StatusActionsCover | address-controller/lib/src/main/java/enmasse/controller/address/AddressSpaceController.java:44-46 | whatever order enumerates the destinations once each, its replacements number as many as the destinations, and each destination's replacement is among them and nothing else is |
| AddressSpace.DirectAlwaysReady | address-controller/lib/src/main/java/enmasse/controller/address/AddressSpaceController.java:109 | destinations that are not store-and-forward are always reported ready |
| AddressSpace.CheckConfigs | address-controller/lib/src/main/java/enmasse/controller/address/AddressSpaceController.java:33-47 | fails, issuing nothing, if and only if a group is mixed; otherwise issues the creates, then the deletes, then exactly one status replacement per destination |

## Left out

- Connecting, starting and stopping the broker, and the address and port setters (MockBroker.java:103-135 apart from the receiver loop, 269-275, 431-445). These are transport set-up.
- AMQP link settings (QoS, target, open) and delivery dispositions. A delivery being accepted is reported as the `accepted` result of `MessageHandler`.
- The asynchrony of vert.x: the event-bus reply, its completion callback and the send-completion callback. These become sequential steps. `OnSubscribeReplied` takes a `replySucceeded` flag. `WillDelivery` replies as soon as it has sent.
- The JSON encoding of the granted levels. The reply carries the list itself.
- `AmqpHelper`'s address templates and `getClientIdFromPubrelAddress`. They are not part of this model. The addresses follow the comments at MockBroker.java:69 and 77, and a pubrel link is identified by its client id directly.
- `AmqpPublishMessage.from` and `toAmqp`. They are not part of this model. They are taken as inverse, with an AMQP message carrying its publish fields as content.
- Mqtt.UnsubscribeDistinctTopics: the closed form of the lists after an unsubscribe covers distinct named topics only; with a repeated topic the lists are given only by the recursive definition `Unsubscribed`, which `Mqtt.MockBroker.Unsubscribe` follows for every input.
- Mqtt.MockBroker.MessageHandler: requires that a pubrel arrives on a pubrel link whose client is known. `getClientIdFromPubrelAddress` is left out, so the model does not say what a pubrel arriving on a topic link does.
- A missing or null will-action header, which makes the Java switch throw. The model takes the action as a string.
- The sender that a will delivery opens is not kept in any map. The model only draws a fresh link identifier for it.
- Mqtt.MockBroker.Subscribe: the contract states that new links come from the counter range and that no link is replaced. It does not state that each missing link costs exactly one identifier.
- Logging and `synchronized`. The model is sequential.
- The Kubernetes and OpenShift client, the `ConfigWatcher` watch loop, `listConfigs`, and the controller constructor. Existing clusters, cluster readiness and the cluster generator are inputs.
- The HashMap and HashSet iteration orders in the controller are unspecified. `CheckConfigs`, `CreateBrokers` and `CheckStatuses` return the orders they used as ghost outputs, and their contracts hold for every order.
- Destinations carry only group, store-and-forward, multicast, flavor and status, which the controller reads, and the address, which the controller never reads and is kept only so that destinations can be told apart. Set membership uses equality on these fields.
- AddressSpace.ReconcileSettles: holds only for a cluster generator that names each cluster after its group key; the generator is an input here, so the model cannot establish this. It also takes the cluster list after reconciling to be the kept clusters followed by the generated ones, each under its own id; the Kubernetes listing that would show this is outside the model.
- AddressSpace.ValidateDestinationGroups: requires non-empty groups. An empty group, which grouping never produces, would make the Java iterator throw.
