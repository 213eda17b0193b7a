# busd in Dafny

A model of a local message bus: its broker, the BUS/1-preview wire codec, the
daemon that serves sessions, and the client's deduplication cache and
reconnection. Every operation is stated twice where the source changes state in
place: as a step on values, about which the theorems are proved, and as a class
or loop proved to do that step.

| files | what they hold |
|---|---|
| `Order`, `Utf8`, `Results`, `Protocol` | byte strings in lexicographic order, UTF-8, results, names, messages and frames |
| `Encoding`, `Decoding`, `RoundTrip`, `Layout`, `Codec` | what the encoder writes, what the decoder reads, that they are inverse, the packets in plain bytes, and the buffer-appending writer and position-advancing reader |
| `BrokerState`, `BrokerSteps`, `Broker` | the broker's state and pure decisions, each call as a step, and the broker object |
| `BrokerRouting`, `BrokerBytes`, `BrokerRegistry` | who gets a message and why it is refused, what the byte limit counts, and the same for registrations |
| `BrokerInvariants`, `BrokerBudgets`, `BrokerLifecycle` | what every reachable state keeps: the registry, the limits, and what lifecycle events tell |
| `BrokerTick`, `BrokerLives`, `BrokerHistory`, `BrokerPromises`, `BrokerMessages`, `BrokerMetrics` | the clock, the life of each delivery as an observer sees it, and what the broker promises about every run |
| `BrokerExamples` | runs on which the documentation is not met, and exactly when it is |
| `Forwarding`, `Daemon` | stamping and dispatch, and all interleavings of session threads and the scheduler |
| `Deduplication`, `Reconnecting`, `Restoring`, `Client` | the cache, the recorded claims and subscriptions, their replay, and the client object |

How things are represented:

- The policy is an arbitrary fixed predicate. Clock readings are arguments, in any order.
- Names and texts are byte strings; text is well-formed UTF-8. Sorted maps and
  sets are iterated by taking the least key.
- Recipient lists have no repeats and ascend, so they are sets. Integer widths,
  saturation and overflow checks are written out; sizes of collections in memory
  are unbounded.
- A run is a sequence of calls on a new broker. A *life* is what an observer of
  the calls and answers sees of one delivery: attempts, acknowledgers,
  acknowledgement reports, responses, forwards and endings. An event addressed to
  anyone but the sender does not count for it.
- A daemon run is an interleaving of single lock-protected steps of any number of
  session threads and the scheduler.

Where the code differs from its documentation the model follows the code:

- `Exact` completes on the first response, like `First`; the policy is documented
  to need the responses of the whole recipient set. It does so exactly for single
  recipients (`ExactNeedsOneRecipient`, `ExactEndsEarly`).
- When every response to a `FirstSuccess` request failed, the frame forwarded is
  that of the lowest recipient but the event names the last responder
  (`RequestsAreAnswered`, `ForwardNamesAnother`).
- The count of messages routed is the number of recipients selected, also for
  messages then refused (`RoutedIsSelected`, `RoutedIsDelivered`).
- When WELCOME cannot be sent the broker keeps the peer (`AbandonedPeersStay`).

Also worth knowing:

- After the last permitted attempt a delivery fails at the next tick, without waiting for a backoff (`TickSettles`).
- `reconnect` opens the new session before giving up the old one, so it is
  refused while the old one still owns a claimed namespace (`OldSessionIsInTheWay`).
- A refused repeat does not renew its place in the deduplication cache (`RepeatsDoNotRenew`).

## Model

| member | source | states |
|---|---|---|
| `RoundTrip.DecodeInvertsEncode` | crates/bus-protocol/src/lib.rs:597-663 | For every frame and all limits: if the frame encodes, decoding the packet under the same limits gives back that frame, for all twelve kinds and blocks of any length |
| `RoundTrip.EncodeInvertsDecode` | crates/bus-protocol/src/lib.rs:619-663 | Every packet the decoder accepts is the one encoding of the frame it returns: encoding that frame again gives the same bytes |
| `RoundTrip.DecodeIsInjective` | crates/bus-protocol/src/lib.rs:619-663 | Two accepted packets with the same frame are the same packet |
| `Layout.EncodedPackets` | crates/bus-protocol/src/lib.rs:597-613 | For every frame, limits and byte string: the encoder returns these bytes exactly when they are the packet laid out for the frame in plain bytes, the frame keeps the rules and counts, and the packet fits |
| `Layout.DecodedPackets` | crates/bus-protocol/src/lib.rs:619-663 | The decoder returns a frame for a packet under exactly the same condition |
| `Layout.HeaderErrors` | crates/bus-protocol/src/lib.rs:619-657 | Which error a packet with a bad header gets, by its first twelve bytes: too short, magic, version, flags, length, size, kind |
| `Layout.BodyLayout` | crates/bus-protocol/src/lib.rs:665-794 | The body of each of the twelve kinds in plain bytes, with every tag, position and length written out |
| `Layout.MessageLayout` | crates/bus-protocol/src/lib.rs:709-744 | The message body in plain bytes: envelope, headers and payload at their positions, for exactly the messages that keep the rules |
| `Layout.OptionsLayout` | crates/bus-protocol/src/lib.rs:730-736 | Kind, acknowledgement policy, requirement, request policy, big-endian deadline and retry policy, each tag by its number at its position |
| `Layout.EnvelopeLayout` | crates/bus-protocol/src/lib.rs:730-741 | Destination, the two identifiers and the status at their positions after the options |
| `Layout.RulesMeaning` | crates/bus-protocol/src/lib.rs:1322-1380 | The option and identity checks pass exactly when the documented rules on acknowledgement, deadline, retry, request policy, identifiers and status hold |
| `Layout.HeadersLayout` | crates/bus-protocol/src/lib.rs:1206-1223 | A header block is the count in two bytes and one entry for each name in ascending order, nothing else |
| `Layout.CapabilitiesLayout` | crates/bus-protocol/src/lib.rs:1224-1241 | A capability block is the count in two bytes and each name once in ascending order |
| `Layout.FiltersLayout` | crates/bus-protocol/src/lib.rs:1242-1291 | A filter block is the count in two bytes and the filters, whose own bytes ascend |
| `Layout.FilterLayout` | crates/bus-protocol/src/lib.rs:1252-1279 | The five filters by their numbers, the name and the value |
| `Layout.ValueLayout` | crates/bus-protocol/src/lib.rs:1184-1205 | The four kinds of header value by their numbers and bytes |
| `Layout.DestinationLayout` | crates/bus-protocol/src/lib.rs:1292-1321 | The six destinations by their numbers and bytes, and the selections by theirs |
| `Layout.ValidIsOk` | crates/bus-protocol/src/lib.rs:1527-1537 | Names are 1 to 255 characters between space and delete other than the slash |
| `Order.LessIsLexicographic` | crates/bus-protocol/src/lib.rs:1001-1011 | The order of names and encodings is that of dictionaries: a proper prefix first, otherwise by the first byte that differs |
| `Utf8.ValidIsScalars` | crates/bus-protocol/src/lib.rs:964-968 | Text is well-formed exactly when it is the UTF-8 encoding of a sequence of Unicode scalar values (section 3 of RFC 3629) |
| `RoundTrip.BodyDecodes` | crates/bus-protocol/src/lib.rs:665-794 | A body of any frame kind, read back under that kind, is the frame with nothing left over |
| `RoundTrip.BodyCanonical` | crates/bus-protocol/src/lib.rs:795-917 | A body accepted under any kind byte is exactly what the encoder writes for the frame read |
| `RoundTrip.EntriesDecode` | crates/bus-protocol/src/lib.rs:994-1013 | Entries written in ascending order of names are read back as the same map, whatever follows, after any smaller previous name |
| `RoundTrip.EntriesCanonical` | crates/bus-protocol/src/lib.rs:994-1013 | A run of strictly increasing entries is the sorted writing of the map it is read as, so no name occurs twice and none is lost |
| `RoundTrip.HeadersDecode` | crates/bus-protocol/src/lib.rs:1206-1223 | A header block that encodes within the limits is read back as the same map |
| `RoundTrip.HeadersCanonical` | crates/bus-protocol/src/lib.rs:994-1013 | An accepted header block is the encoding of the map it is read as |
| `RoundTrip.CapabilitiesDecode` | crates/bus-protocol/src/lib.rs:1224-1241 | A capability block that encodes is read back as the same set |
| `RoundTrip.CapabilitiesCanonical` | crates/bus-protocol/src/lib.rs:1014-1033 | An accepted capability block is the encoding of the set it is read as |
| `RoundTrip.FilterListDecodes` | crates/bus-protocol/src/lib.rs:1242-1291 | Filters whose encodings strictly increase are read back as the same list in the same order |
| `RoundTrip.FiltersDecode` | crates/bus-protocol/src/lib.rs:1242-1291 | A filter block that encodes is read back as the same list |
| `RoundTrip.FiltersCanonical` | crates/bus-protocol/src/lib.rs:1034-1064 | An accepted filter block is the encoding of the list it is read as; comparing consumed bytes on reading is comparing encodings on writing |
| `RoundTrip.ValueDecodes` | crates/bus-protocol/src/lib.rs:1184-1205 | A header value of any of the four kinds is read back as itself |
| `RoundTrip.ValueCanonical` | crates/bus-protocol/src/lib.rs:981-993 | The bytes of an accepted header value are the encoding of that value |
| `RoundTrip.TextDecodes` | crates/bus-protocol/src/lib.rs:1133-1139 | Text that fits its length field is read back, and passes the UTF-8 check |
| `RoundTrip.NameCanonical` | crates/bus-protocol/src/lib.rs:969-973 | The bytes of an accepted name are the encoding of that name |
| `RoundTrip.AckRequirementCanonical` | crates/bus-protocol/src/lib.rs:1065-1080 | The bytes of an accepted acknowledgement requirement are its encoding; a minimum of zero is never accepted |
| `RoundTrip.RetryCanonical` | crates/bus-protocol/src/lib.rs:1081-1098 | The bytes of an accepted retry policy are its encoding; a zero backoff or fewer than two attempts are never accepted |
| `RoundTrip.DestinationDecodes` | crates/bus-protocol/src/lib.rs:1292-1321 | A destination that encodes is read back as itself, for all six selectors |
| `RoundTrip.DestinationCanonical` | crates/bus-protocol/src/lib.rs:1099-1121 | The bytes of an accepted destination are its encoding |
| `RoundTrip.MessageDecodes` | crates/bus-protocol/src/lib.rs:709-744 | A message that passes the option and identity rules and encodes is read back as the same message |
| `RoundTrip.MessageCanonical` | crates/bus-protocol/src/lib.rs:834-868 | The bytes of an accepted message are its encoding, and the message passes the rules the encoder checks |
| `Protocol.NameIsText` | crates/bus-protocol/src/lib.rs:1527-1537 | Every valid name is well-formed UTF-8 (section 4 of RFC 3629), so reading a name cannot fail on its text check |
| `Protocol.NamespaceIsText` | crates/bus-protocol/src/lib.rs:95-113 | Every valid namespace is well-formed UTF-8 |
| `Utf8.AsciiIsValid` | crates/bus-protocol/src/lib.rs:964-968 | Byte strings below 0x80 are well-formed UTF-8 |
| `Codec.EncodeWithLimits` | crates/bus-protocol/src/lib.rs:597-613 | The writer that appends to a buffer produces exactly the packet laid out for a frame that is in order and fits, or the first error; decoding the packet gives the frame back |
| `Codec.DecodeWithLimits` | crates/bus-protocol/src/lib.rs:619-663 | The reader that advances a position returns a frame exactly for packets laid out for it, and then the packet is its one encoding; otherwise the first error |
| `Codec.Writer.PushBody` | crates/bus-protocol/src/lib.rs:665-794 | The buffer gains exactly the body the specification writes for the frame, for every kind, or the first error is returned |
| `Codec.Writer.PushMessage` | crates/bus-protocol/src/lib.rs:709-744 | The buffer gains exactly the message body of the specification; the rules are checked before anything is written |
| `Codec.Writer.PushHeaders` | crates/bus-protocol/src/lib.rs:1206-1223 | The loop over the sorted map appends exactly the specified block after the count check |
| `Codec.Writer.PushCapabilities` | crates/bus-protocol/src/lib.rs:1224-1241 | The loop over the sorted set appends exactly the specified block |
| `Codec.Writer.PushValue` | crates/bus-protocol/src/lib.rs:1184-1205 | Appends the tag and the value as the specification writes them |
| `Codec.Writer.PushDestination` | crates/bus-protocol/src/lib.rs:1292-1321 | Appends the selector as the specification writes it, for all six |
| `Codec.Writer.PushFilter` | crates/bus-protocol/src/lib.rs:1252-1279 | Appends one filter as the specification writes it |
| `Codec.EncodeEach` | crates/bus-protocol/src/lib.rs:1250-1279 | The loop gives each filter its own buffer and collects their encodings in order, or the first error |
| `Codec.Writer.PushFilters` | crates/bus-protocol/src/lib.rs:1242-1291 | Encodes each filter, refuses lists whose encodings do not strictly increase, and appends them in order |
| `Codec.Reader.TakeBytes` | crates/bus-protocol/src/lib.rs:931-942 | Takes the next bytes and moves past them, or fails without enough |
| `Codec.Reader.ReadHeaders` | crates/bus-protocol/src/lib.rs:994-1013 | The loop with a previous name reads the map the specification reads, fails in the same cases, and stops right after the block |
| `Codec.Reader.ReadCapabilities` | crates/bus-protocol/src/lib.rs:1014-1033 | The loop with a previous name reads the set the specification reads and stops right after it |
| `Codec.Reader.ReadItem` | crates/bus-protocol/src/lib.rs:1041-1062 | Reads one filter with the bytes it came from and refuses it unless those come after the previous ones |
| `Codec.Reader.ReadFilters` | crates/bus-protocol/src/lib.rs:1034-1064 | The loop with the previous encoding reads the list the specification reads and stops right after it |
| `Codec.Reader.ReadMessage` | crates/bus-protocol/src/lib.rs:834-868 | Reads the message the specification reads, with the option and identity rules checked where the code checks them |
| `Codec.Reader.ReadDestination` | crates/bus-protocol/src/lib.rs:1099-1121 | Reads the destination the specification reads and stops right after it |
| `Codec.Reader.ReadBody` | crates/bus-protocol/src/lib.rs:795-917 | Dispatches on the kind byte and reads the frame the specification reads |
| `BrokerObject.Broker.constructor` | crates/bus-broker/src/lib.rs:223-241 | A new broker is the initial state |
| `BrokerObject.Broker.ConnectSession` | crates/bus-broker/src/lib.rs:271-300 | Takes the object to the state and answer of the specified step: a new identity, negotiated capabilities, one event, or the first error and no change |
| `BrokerObject.Broker.RemovePeer` | crates/bus-broker/src/lib.rs:307-333 | Takes the object to the state of the specified step: everything the peer held is gone, with one release event per namespace in ascending order |
| `BrokerObject.Broker.Disconnect` | crates/bus-broker/src/lib.rs:801-819 | Takes the object to the state and answer of the specified step: the deliveries it was to receive end, each with its report in ascending order |
| `BrokerObject.Broker.Claim` | crates/bus-broker/src/lib.rs:336-367 | Takes the object to the state and answer of the specified step: an unowned namespace gets its first owner and one event, or the first of the policy, limit and ownership errors and no change |
| `BrokerObject.Broker.SubscribeWithFilters` | crates/bus-broker/src/lib.rs:375-408 | Takes the object to the state and answer of the specified step: new filters replace old ones without counting against the limit again |
| `BrokerObject.Broker.Unsubscribe` | crates/bus-broker/src/lib.rs:411-420 | Takes the object to the state and answer of the specified step; no empty channel entry is left |
| `BrokerObject.Broker.RegisterDbusName` | crates/bus-broker/src/lib.rs:432-443 | Takes the object to the state and answer of the specified step: a valid unowned name gets its first owner, or an error and no change |
| `BrokerObject.Broker.BeginDelivery` | crates/bus-broker/src/lib.rs:534-654 | Takes the object to the state and answer of the specified step, with its checks in the order of the code: reserved headers, priority, response, duplicate, route |
| `BrokerObject.Broker.Accept` | crates/bus-broker/src/lib.rs:578-654 | Takes the object to the state and answer of the specified step once recipients are selected: no recipient, passed on, refused for room, or kept until it ends |
| `BrokerObject.Broker.CompleteResponse` | crates/bus-broker/src/lib.rs:821-875 | Takes the object to the state and answer of the specified step: the response is kept, forwarded or not, and the request ends or not, by its policy |
| `BrokerObject.Broker.Acknowledge` | crates/bus-broker/src/lib.rs:657-719 | Takes the object to the state and answer of the specified step: one report when the requirement is first met, which ends all but requests |
| `BrokerObject.Broker.Tick` | crates/bus-broker/src/lib.rs:722-798 | The one pass that expires, fails and retries in place, then sorts the retries, reaches the state and events of the specification that treats each delivery alone |
| `BrokerObject.Broker.DrainEvents` | crates/bus-broker/src/lib.rs:920-922 | Hands over all held events in order and keeps none |
| `BrokerObject.Scan` | crates/bus-broker/src/lib.rs:722-786 | The loop over deliveries in ascending order leaves the deliveries, reports, retries and counts of the per-delivery specification |
| `BrokerObject.DropAffected` | crates/bus-broker/src/lib.rs:803-818 | The loop over affected deliveries removes exactly those and reports each once in ascending order |
| `BrokerObject.PushReleases` | crates/bus-broker/src/lib.rs:309-327 | The loop over released namespaces appends one event each in ascending order |
| `BrokerObject.Broker.Perform` | crates/bus-broker/src/lib.rs:49-63 | Any call takes the object to the state and answer of its step |
| `BrokerObject.RecordedBroker.Perform` | crates/bus-broker/src/lib.rs:49-63 | After any sequence of calls the object is in the state of the run of those calls, so every statement about runs is one about the object |
| `BrokerInvariants.RunKeeps` | crates/bus-broker/src/lib.rs:307-443 | In every reachable state: owners, registrants and subscribers are connected and permitted, no channel entry is empty, and every delivery in flight has recipients, all connected, with acknowledgers and responders among them |
| `BrokerInvariants.ApplyKeeps` | crates/bus-broker/src/lib.rs:271-875 | Every call keeps that invariant, whatever it answers |
| `BrokerInvariants.SelectedAreConnected` | crates/bus-broker/src/lib.rs:466-531 | Whatever a destination selects is connected |
| `BrokerRouting.SelectedAreAddressed` | crates/bus-broker/src/lib.rs:466-531 | The broker selects exactly the peers a message is for: the addressed peer, the owner, the subscribers all of whose filters hold, the lowest or all peers with the client id, everyone but the sender |
| `BrokerRouting.MessagesReachTheAddressed` | crates/bus-broker/src/lib.rs:534-654 | Every message that is not refused is from a connected and permitted sender and goes to exactly the peers it is for; the sender is told NoRecipient instead exactly when nobody, or too few for the requirement, are there |
| `BrokerRouting.MessagesAreStopped` | crates/bus-broker/src/lib.rs:556-574 | A message that does not pass is refused for the first reason there is: unknown sender, reserved header, priority, duplicate, policy |
| `BrokerRouting.MessagesFindNoRoom` | crates/bus-broker/src/lib.rs:633-636 | A message that passes is refused only if it is to be kept, for exactly the first limit of its sender it exceeds or a deadline beyond the clock |
| `BrokerRouting.MessagesAreKept` | crates/bus-broker/src/lib.rs:637-652 | The one delivery added is that of a message that goes out and must be kept, with its sender, recipients, deadline and priority; otherwise none is |
| `BrokerRouting.ResponsesAreTaken` | crates/bus-broker/src/lib.rs:821-850 | A response is taken exactly if it answers a request in flight, from one of its recipients and as the first of that one; otherwise the error says which |
| `BrokerRouting.FilterMeaning` | crates/bus-broker/src/lib.rs:1105-1121 | What each of the five filters asks of the headers |
| `BrokerRouting.PriorityMeaning` | crates/bus-broker/src/lib.rs:1132-1138 | The priority is the number from 0 to 7 under that header and 0 without it; anything else is refused |
| `BrokerRouting.ReservedMeaning` | crates/bus-broker/src/lib.rs:1123-1130 | Exactly the names that begin with one of the three prefixes are the broker's own |
| `BrokerRegistry.NamesHaveComponents` | crates/bus-broker/src/lib.rs:1335-1351 | A D-Bus name is valid exactly if it is a dotted sequence of components of letters, digits and underscores not starting with a digit, of at most 255 bytes |
| `BrokerRegistry.ConnectionsAreRefused` | crates/bus-broker/src/lib.rs:271-282 | A connection is refused for the first reserved header, the policy or exhausted identities, and otherwise gets the next identity |
| `BrokerRegistry.RegistrationsAreRefused` | crates/bus-broker/src/lib.rs:336-443 | Claims, subscriptions and names are refused for exactly the first reason there is, with the owner named |
| `BrokerRegistry.LeavingEndsDeliveries` | crates/bus-broker/src/lib.rs:801-818 | A leaving peer ends exactly the deliveries it was to receive, one report each in ascending order |
| `BrokerRegistry.LeavingReleasesNamespaces` | crates/bus-broker/src/lib.rs:307-331 | A leaving peer's namespaces are released in ascending order, and then it is announced gone |
| `BrokerInvariants.DisconnectKeeps` | crates/bus-broker/src/lib.rs:801-819 | Removing a peer together with the deliveries it was to receive keeps the invariant |
| `BrokerInvariants.ErrorsChangeNothing` | crates/bus-broker/src/lib.rs:271-875 | A call that fails changes nothing but the metrics |
| `BrokerInvariants.AcknowledgeErrorsChangeNothing` | crates/bus-broker/src/lib.rs:678-696 | The error branch that follows the insertion of an acknowledgement is never taken |
| `BrokerBudgets.RunKeepsLimits` | crates/bus-broker/src/lib.rs:971-1010 | In every reachable state every peer is within its namespace, subscription, queued-message and in-flight-request limits, and within its queued-byte limit unless that is the largest there is |
| `BrokerBytes.RunKeepsByteLimit` | crates/bus-broker/src/lib.rs:971-1010 | The same for a sender's deliveries listed in any order, with their bytes added up one by one |
| `BrokerBytes.HeadersCount` | crates/bus-broker/src/lib.rs:1189-1209 | Each header counts its name and its value: a number 8, a flag 1, text and binary data their length, wherever the name sorts |
| `BrokerBytes.MessagesCount` | crates/bus-broker/src/lib.rs:1189-1209 | A message counts its payload and headers, up to the largest word |
| `BrokerBytes.LoadIsTotal` | crates/bus-broker/src/lib.rs:985-989 | The bytes of deliveries add up the same in any order |
| `BrokerBytes.CapacityMeaning` | crates/bus-broker/src/lib.rs:971-1010 | Exactly when each of the three limits refuses a message: too many deliveries, too many bytes with this one, too many requests |
| `BrokerBudgets.TopByteLimitIsNone` | crates/bus-broker/src/lib.rs:971-1010 | At the largest byte limit the saturating sum never exceeds it, so only the two counts decide: exactly why bytes are not bounded there |
| `BrokerBudgets.CallOnRegistrations` | crates/bus-broker/src/lib.rs:336-420 | Namespaces and subscriptions of a peer grow only by its own call and only below its limit |
| `BrokerBudgets.CallAdmits` | crates/bus-broker/src/lib.rs:633-652 | A call leaves a part of the deliveries or adds one that passed the capacity check of its own sender |
| `BrokerBudgets.OthersTakeNoRoom` | crates/bus-broker/src/lib.rs:971-1010 | While a sender begins nothing itself, no call of anyone makes the capacity check refuse a message it would have let through |
| `BrokerBudgets.LimitsLookAtOwnEntries` | crates/bus-broker/src/lib.rs:338-346 | Two states that agree on a peer and its own entries refuse its claims, subscriptions and messages for a limit in the same cases |
| `BrokerLifecycle.RunReplays` | crates/bus-broker/src/lib.rs:278-333 | Over every run: replaying all lifecycle events from nothing gives exactly the connected peers and namespace owners, each previous owner fits, and no identity is issued twice |
| `BrokerLifecycle.CallTells` | crates/bus-broker/src/lib.rs:353-358 | Every call takes an observer from what it knew to what is now true |
| `BrokerTick.TickRefinesOne` | crates/bus-broker/src/lib.rs:722-798 | For every message identifier the events about it are exactly those of that delivery alone: none lost, none twice |
| `BrokerTick.TickExpires` | crates/bus-broker/src/lib.rs:730-741 | Afterwards no delivery has reached its deadline |
| `BrokerTick.TickOrder` | crates/bus-broker/src/lib.rs:786-798 | All outcomes in ascending identifier order, then all retries by falling priority and rising identifier |
| `BrokerTick.TickSettles` | crates/bus-broker/src/lib.rs:742-770 | For codec-valid messages a third tick at one reading says and changes nothing, and the second reports only failures of deliveries the first sent for the last time |
| `BrokerTick.DecodedIsCodecValid` | crates/bus-protocol/src/lib.rs:1322-1380 | Every message the decoder returns is codec-valid |
| `BrokerMessages.RunTickSettles` | crates/bus-broker/src/lib.rs:722-798 | The same in every state that a run of codec-valid messages reaches |
| `BrokerMessages.RunCarries` | crates/bus-broker/src/lib.rs:534-875 | Whatever holds of all messages the broker accepts holds of all it keeps, responses included |
| `BrokerMessages.CallCarries` | crates/bus-broker/src/lib.rs:534-875 | and of every message it sends on, first or again |
| `BrokerHistory.RunBalances` | crates/bus-broker/src/lib.rs:630-652 | Over every run: deliveries started are those ended and those in flight, each in flight has not ended, every other ended exactly once and for its reason |
| `BrokerHistory.CallBalances` | crates/bus-broker/src/lib.rs:722-875 | Each call keeps that balance between the broker and what an observer of its answers has seen |
| `BrokerPromises.DeliveriesEndOnce` | crates/bus-broker/src/lib.rs:697-819 | For every message identifier of every run: no ending while in flight, afterwards exactly one, told to its sender and caused by the right call: an acknowledgement as asked for by a recipient that gave it, a timeout by the clock no earlier than the deadline, a failure by the clock before it with all attempts made, the leaving of a recipient, or for a request the responses its policy asks for |
| `BrokerPromises.LostRecipientsAreGone` | crates/bus-broker/src/lib.rs:801-819 | A delivery reported as having lost a recipient lost one of its own, who is not connected then or ever after |
| `BrokerPromises.RetriesArePaced` | crates/bus-broker/src/lib.rs:756-784 | A codec-valid message is sent at most its number of attempts, always unchanged, to shrinking sets of recipients, each attempt at least the exact doubling delay after the one before and none at or after the deadline, at every clock reading |
| `BrokerPromises.TheClockIsExact` | crates/bus-broker/src/lib.rs:722-784 | Over every run what a tick says about a delivery in flight follows from its life: a timeout from the deadline on; before it, a repeat exactly once the doubling delay after the last attempt is over, to those that have not acknowledged; a failure once no attempt is left |
| `BrokerPromises.BackoffIsExact` | crates/bus-broker/src/lib.rs:1171-1187 | The shift cap and the saturating product never alter the delay min(60000, initial doubled per attempt) |
| `BrokerPromises.AcksAreReportedOnce` | crates/bus-broker/src/lib.rs:657-719 | An acknowledgement report is sent once and exactly when enough distinct recipients have said what was asked for: processed where that is wanted, at least received otherwise; the completion flag says the same; a signal in flight has a recipient left to hear from and is never sent to nobody |
| `BrokerPromises.AcknowledgementsAreTaken` | crates/bus-broker/src/lib.rs:657-696 | An acknowledgement is taken exactly if it is permitted, for a delivery in flight, from one of its recipients and says processed where that is wanted or at least received where that is; otherwise the error says which |
| `BrokerPromises.MetIsEnough` | crates/bus-broker/src/lib.rs:1148-1159 | The requirement is met exactly when someone, everyone or the asked number has acknowledged |
| `BrokerPromises.RequestsAreAnswered` | crates/bus-broker/src/lib.rs:821-875 | A request ends by responses exactly when they meet its policy; then it was forwarded once, once per recipient, or the first success or lowest failure as its policy says, and each forward names its author except after all failed, where it does so exactly when the last responder is the lowest recipient |
| `BrokerPromises.ForwardMayNameAnother` | crates/bus-broker/src/lib.rs:861-873 | In any state where peer 1 has failed a two-recipient FirstSuccess request, the failure of peer 2 forwards the frame of peer 1 under the name of peer 2 |
| `BrokerExamples.ForwardNamesAnother` | crates/bus-broker/src/lib.rs:861-873 | A run of codec-valid messages on an open broker that ends with such a forward |
| `BrokerExamples.ExactNeedsOneRecipient` | crates/bus-protocol/src/lib.rs:232-233 | Over every run: a request with policy Exact that ended by response has heard from its whole recipient set exactly when that set has one member |
| `BrokerExamples.ExactEndsEarly` | crates/bus-broker/src/lib.rs:851-852 | A run in which an Exact request to two recipients is over with the response of one |
| `BrokerExamples.ExamplesAreCodecValid` | crates/bus-protocol/src/lib.rs:1322-1380 | The messages of these runs pass the rules of the codec |
| `BrokerMetrics.RoutedIsSelected` | crates/bus-broker/src/lib.rs:578-581 | Over every run the routed count is the sum of all recipients ever selected, saturated at the counter maximum |
| `BrokerMetrics.CountedIsDeliveredUnlessInVain` | crates/bus-broker/src/lib.rs:578-652 | One call delivers to the recipients it counts, except to none exactly when some were selected but too few for the requirement, or without room or time for the message |
| `BrokerMetrics.RoutedIsDelivered` | crates/bus-broker/src/lib.rs:578-652 | Over every run as many recipients are delivered to as were selected exactly if no call selected in vain |
| `BrokerMetrics.CountersAgree` | crates/bus-broker/src/lib.rs:578-601 | Over every run the other counters are payload bytes for each recipient selected, timeouts the clock told, deliveries it repeated and signals nobody was there for, saturated |
| `Forwarding.ForwardingAddsTheStamp` | crates/busd/src/main.rs:464-481 | Forwarding an accepted message adds one new header and 24 bytes, encodes exactly when that room was left, and the receiver decodes the original message plus the sender, nothing else changed |
| `Forwarding.EntryAdds` | crates/bus-protocol/src/lib.rs:1206-1223 | A new header costs its own encoded length wherever its name sorts, and does not change whether the others encode |
| `Forwarding.EverySentMessageCameIn` | crates/bus-broker/src/lib.rs:556-654 | Over every run of decoded frames, every message sent on has passed the reserved-header check and encodes under the daemon limits, so the forwarding law applies to it |
| `Forwarding.SendEach` | crates/busd/src/main.rs:489-497 | Sends in ascending order, skips broken pipes, and stops at the first other failure with all lower sends done |
| `Forwarding.DispatchDeliveryEvents` | crates/busd/src/main.rs:452-501 | The loop sends, in order, to those of each event's recipients that have a session by then, a packet that decodes to the stamped message or outcome; it succeeds exactly when every event encodes, clones and sends, and otherwise stops at the first that does not with its error |
| `Daemon.RunIsOk` | crates/busd/src/main.rs:229-302 | Over every interleaving the session map, the broker's peers and the threads agree |
| `Daemon.SessionsAreServedByOneThread` | crates/busd/src/main.rs:278-289 | Each session is a connected peer, served by exactly one thread |
| `Daemon.PeersAreThoseOfThreads` | crates/busd/src/main.rs:258-302 | The broker's peers are exactly those of threads that registered one and have not unregistered it |
| `Daemon.SessionCallsKnowTheirPeer` | crates/busd/src/main.rs:305-449 | No broker call for a live session, nor its final disconnect, fails for an unknown peer |
| `Daemon.InterleavingsAreRuns` | crates/busd/src/main.rs:180-190 | Every interleaving is one run of whole broker calls |
| `Daemon.FinishedDaemonHoldsNothing` | crates/busd/src/main.rs:286-302 | When all threads have finished, the broker holds no peer, name, subscription or delivery |
| `Daemon.AbandonedPeersStay` | crates/busd/src/main.rs:269-284 | A peer whose WELCOME failed stays registered for ever, under its own identity |
| `Deduplication.DeduplicationCache.constructor` | crates/bus-client/src/lib.rs:114-122 | A new cache remembers nothing |
| `Deduplication.DeduplicationCache.Record` | crates/bus-client/src/lib.rs:125-140 | Answers new exactly when the identifier is none of the last accepted ones up to the capacity; queue and set keep holding just those, once each |
| `Deduplication.DeduplicationCache.Length` | crates/bus-client/src/lib.rs:143-146 | The size of the set is the number accepted, up to the capacity |
| `Deduplication.WindowsAreDistinct` | crates/bus-client/src/lib.rs:125-140 | Any capacity + 1 accepted identifiers in a row are pairwise different |
| `Deduplication.RepeatsAreRefused` | crates/bus-client/src/lib.rs:125-140 | For every capacity and history: a repeat is refused exactly while fewer than capacity others were accepted after its last acceptance, however many were offered |
| `Deduplication.RepeatsDoNotRenew` | crates/bus-client/src/lib.rs:125-140 | A refused repeat leaves no trace: every later offer is answered as if it had not been made |
| `Deduplication.AcceptedGrows` | crates/bus-client/src/lib.rs:125-140 | What was accepted stays accepted, and each further offer adds at most one |
| `Deduplication.OfferedIsAccepted` | crates/bus-client/src/lib.rs:125-140 | Every identifier offered was accepted at least once |
| `Deduplication.NoCapacityAcceptsAll` | crates/bus-client/src/lib.rs:129-131 | With no capacity every identifier is accepted |
| `ClientObject.ReconnectingBus.Claim` | crates/bus-client/src/lib.rs:201-206 | Records the claim exactly if the broker granted it, and the record keeps describing the session |
| `ClientObject.ReconnectingBus.Subscribe` | crates/bus-client/src/lib.rs:209-213 | Records the subscription exactly if the broker granted it, and the record keeps describing the session |
| `ClientObject.ReconnectingBus.Unsubscribe` | crates/bus-client/src/lib.rs:216-221 | Drops every record of the channel if the broker granted it, and the record keeps describing the session |
| `ClientObject.Connect` | crates/bus-client/src/lib.rs:171-180 | Opens a session on any broker in order, and gives a client whose empty record describes it, or the broker's refusal |
| `ClientObject.ReconnectingBus.Reconnect` | crates/bus-client/src/lib.rs:227-237 | Replays claims then subscriptions in order, with any calls of others in between, stops at the first refusal and then keeps the old session, and the record keeps describing the session |
| `ClientObject.ReconnectingBus.RestoreClaims` | crates/bus-client/src/lib.rs:229-231 | The loop replays until the first refusal |
| `ClientObject.ReconnectingBus.RestoreSubscriptions` | crates/bus-client/src/lib.rs:232-234 | The loop replays until the first refusal |
| `ClientObject.Retain` | crates/bus-client/src/lib.rs:218-219 | Keeps exactly the subscriptions to other channels, in order |
| `Restoring.RecordDescribesSession` | crates/bus-client/src/lib.rs:201-237 | In every run of a client among any calls of others, also during reconnection, while its session lasts the broker holds for it exactly the claims and last filters on record |
| `Restoring.ReconnectRestores` | crates/bus-client/src/lib.rs:227-237 | On any broker and with any calls of others in between: reconnecting succeeds exactly when an identity is left, every claim is free at its turn and nobody ends the new session, and then that session holds exactly what is on record |
| `Restoring.QuietReconnectNeedsFreeNames` | crates/bus-client/src/lib.rs:227-237 | With nobody in between that condition is exactly that an identity is left and all namespaces on record are free |
| `Restoring.EveryRecordIsRestored` | crates/bus-client/src/lib.rs:227-237 | The same for every record a client can come by, every broker history it can return to and everything others do meanwhile |
| `Restoring.OldSessionIsInTheWay` | crates/bus-client/src/lib.rs:227-237 | A client with claims cannot reconnect while its old session is still registered when the first claim is replayed |
| `Restoring.ReconnectLeavesOthers` | crates/bus-client/src/lib.rs:227-237 | Reconnecting, successful or not, changes nothing that any earlier peer holds but by that peer's own calls |
| `Reconnecting.OthersKeepHoldings` | crates/bus-broker/src/lib.rs:307-420 | No call but a peer's own control calls and its leaving changes what the broker holds for it |
| `Restoring.ReplayClaimsHolds` | crates/bus-broker/src/lib.rs:336-367 | Claims that were granted once are granted again exactly when each is free at its turn and the session still there |
| `Restoring.ReplaySubscriptionsHolds` | crates/bus-broker/src/lib.rs:375-408 | Subscriptions that were granted once are granted again exactly while the session is still there, with the last filters of each channel |
| `Reconnecting.FiltersWithout` | crates/bus-client/src/lib.rs:216-221 | Dropping a channel from the record drops it, and only it, from what the record says |

## Left out

- RunKeepsLimits: says nothing about queued bytes at the largest byte limit, because there the check never refuses for bytes (`TopByteLimitIsNone`).
- DispatchDeliveryEvents: a send that is done says nothing about arrival.
- Reconnect: a control call returns the broker's own answer; lost connections, replies overtaken by deliveries and refused encodings are not modelled.
- The monitor log and its labels: text for privileged observers, with no effect on the rest.
- Policy evaluation and its file format: the policy is any predicate.
- The Unix and D-Bus transports, sockets, credentials from the kernel and descriptor passing.
- Command line, logging, metrics printing and the health check of the daemon.
- Poisoned locks: no thread panics while holding one.
- The client's socket calls (`Bus`), including waiting for a response.
- Read-only queries of the broker (`peers`, `namespaces`, `subscriptions`, `namespace_owner`): lookups.
- Update in place of each pending delivery: the broker object replaces the entry in its map.
