/** Why registrations are refused, what names may be registered, and in which order a leaving peer's things go. */
module BrokerRegistry {
  import opened Order
  import opened Results
  import opened Protocol
  import opened BrokerState
  import opened BrokerSteps
  import opened BrokerInvariants
  import opened BrokerRouting

  // ---------- D-Bus names ----------

  const DOT: byte := 0x2E

  predicate Letter(b: byte) { 'a' as int <= b <= 'z' as int || 'A' as int <= b <= 'Z' as int || b == '_' as int }

  predicate Digit(b: byte) { '0' as int <= b <= '9' as int }

  /** Letters, digits and underscores, not starting with a digit. */
  predicate Component(c: Bytes)
  {
    c != [] && Letter(c[0]) && forall i :: 0 <= i < |c| ==> Letter(c[i]) || Digit(c[i])
  }

  ghost predicate Components(cs: seq<Bytes>)
  {
    cs != [] && forall i :: 0 <= i < |cs| ==> Component(cs[i])
  }

  function Dotted(cs: seq<Bytes>): Bytes
    requires cs != []
  {
    if |cs| == 1 then cs[0] else cs[0] + [DOT] + Dotted(cs[1..])
  }

  /** The byte is right for its place. */
  predicate Right(name: Bytes, i: nat)
    requires i < |name|
  {
    if name[i] == DOT then 0 < i < |name| - 1 && name[i - 1] != DOT
    else if i == 0 || name[i - 1] == DOT then Letter(name[i])
    else Letter(name[i]) || Digit(name[i])
  }

  predicate InPlace(name: Bytes)
  {
    name != [] && forall i :: 0 <= i < |name| ==> Right(name, i)
  }

  lemma {:induction false} DottedInPlace(cs: seq<Bytes>)
    requires Components(cs)
    ensures InPlace(Dotted(cs))
  {
    if |cs| > 1 {
      DottedInPlace(cs[1..]);
      OneBefore(cs[0], Dotted(cs[1..]));
    }
  }

  lemma OneBefore(c: Bytes, rest: Bytes)
    requires Component(c) && InPlace(rest)
    ensures InPlace(c + [DOT] + rest)
  {
    var name, n := c + [DOT] + rest, |c| + 1;
    forall i | 0 <= i < |name| ensures Right(name, i) {
      if i >= n {
        assert Right(rest, i - n);
        assert name[i] == rest[i - n];
        assert i > n ==> name[i - 1] == rest[i - n - 1];
      } else if i < |c| {
        assert name[i] == c[i];
        assert Letter(c[i]) || Digit(c[i]);
        assert i > 0 ==> name[i - 1] == c[i - 1] && (Letter(c[i - 1]) || Digit(c[i - 1]));
      } else {
        assert name[i - 1] == c[i - 1] && (Letter(c[i - 1]) || Digit(c[i - 1]));
      }
    }
  }

  lemma {:induction false} InPlaceDotted(name: Bytes)
    requires InPlace(name)
    ensures exists cs :: Components(cs) && Dotted(cs) == name
    decreases |name|
  {
    if DOT !in name {
      assert Component(name) by { NoDotComponent(name, name, |name|); }
      assert Components([name]) && Dotted([name]) == name;
    } else {
      var k := FirstDot(name);
      var c, rest := name[..k], name[k + 1..];
      assert name[k] == DOT;
      assert Component(c) by { ComponentBefore(name, k); }
      assert InPlace(rest) by { InPlaceAfter(name, k); }
      InPlaceDotted(rest);
      var cs :| Components(cs) && Dotted(cs) == rest;
      var all := [c] + cs;
      assert all[1..] == cs;
      assert Components(all) && Dotted(all) == c + [DOT] + rest == name;
    }
  }

  function FirstDot(name: Bytes): (k: nat)
    requires DOT in name
    ensures k < |name| && name[k] == DOT && DOT !in name[..k]
  {
    if name[0] == DOT then 0
    else
      assert name == [name[0]] + name[1..];
      var k := 1 + FirstDot(name[1..]);
      assert name[..k] == [name[0]] + name[1..][..k - 1];
      k
  }

  lemma NoDotComponent(name: Bytes, c: Bytes, k: nat)
    requires InPlace(name) && 0 < k <= |name| && c == name[..k] && DOT !in c
    ensures Component(c)
  {
    assert Right(name, 0) && c[0] == name[0] && c[0] in c;
    forall i | 0 <= i < |c| ensures Letter(c[i]) || Digit(c[i]) {
      assert Right(name, i) && c[i] == name[i] && c[i] in c;
      assert i > 0 ==> c[i - 1] in c;
    }
  }

  lemma ComponentBefore(name: Bytes, k: nat)
    requires InPlace(name) && k < |name| && name[k] == DOT && DOT !in name[..k]
    ensures Component(name[..k])
  {
    assert Right(name, k);
    NoDotComponent(name, name[..k], k);
  }

  lemma InPlaceAfter(name: Bytes, k: nat)
    requires InPlace(name) && k < |name| && name[k] == DOT
    ensures InPlace(name[k + 1..])
  {
    var rest, n := name[k + 1..], k + 1;
    assert Right(name, k);
    forall i | 0 <= i < |rest| ensures Right(rest, i) {
      assert Right(name, n + i);
      assert rest[i] == name[n + i];
      assert i > 0 ==> rest[i - 1] == name[n + i - 1];
    }
  }

  lemma ValidIsInPlace(name: Bytes)
    ensures ValidDbusName(name) <==> |name| <= 255 && InPlace(name)
  {
    forall i | 0 <= i < |name| ensures Right(name, i) <==> DbusByte(name, i) {
    }
    hide Right, DbusByte;
  }

  /** A name that may be registered is a dotted sequence of components, of at most 255 bytes in all. */
  lemma NamesHaveComponents(name: Bytes)
    ensures ValidDbusName(name) <==> |name| <= 255 && exists cs :: Components(cs) && Dotted(cs) == name
  {
    ValidIsInPlace(name);
    hide ValidDbusName, InPlace, Component;
    if InPlace(name) {
      InPlaceDotted(name);
    }
    if cs :| Components(cs) && Dotted(cs) == name {
      DottedInPlace(cs);
    }
  }

  // ---------- Refusals ----------

  /** Who may connect, and why the others may not. */
  lemma ConnectionsAreRefused(c: Config, s: State, credentials: Credentials, hello: ClientHello)
    ensures var answer := ConnectSession(c, s, credentials, hello).result;
      var own := set name | name in hello.headers && BrokersOwn(name);
      if own != {} then answer.Err? && answer.error.ReservedHeader? && IsMin(answer.error.name, own)
      else if !c.permits(credentials, hello.clientId, hello.headers, Connect) then answer == Err(PolicyDenied(Connect))
      else if s.nextPeer == U64_MAX then answer == Err(PeerIdExhausted)
      else answer == Ok(s.nextPeer)
  {
    hide CheckHeaders, BrokersOwn, IsMin;
    HeadersMeaning(hello.headers);
  }

  /** Every refused claim, subscription and registration has the first reason there is. */
  lemma RegistrationsAreRefused(c: Config, s: State, peer: PeerId, n: Namespace, ch: Channel, f: seq<HeaderFilter>, name: Text)
    ensures var answer := ClaimStep(c, s, peer, n).result;
      if peer !in s.peers then answer == Err(UnknownPeer(peer))
      else if !Permitted(c, s.peers[peer], ClaimNamespace(n)) then answer == Err(PolicyDenied(ClaimNamespace(n)))
      else if |set k | k in s.namespaces && s.namespaces[k] == peer| >= c.limits.maximumNamespaceClaims
      then answer == Err(LimitReached(NamespaceClaims))
      else if n in s.namespaces then answer == Err(NamespaceAlreadyOwned(n, s.namespaces[n]))
      else answer.Ok?
    ensures var answer := SubscribeStep(c, s, peer, ch, f).result;
      var held := set k | k in s.subscriptions && peer in s.subscriptions[k];
      if peer !in s.peers then answer == Err(UnknownPeer(peer))
      else if !Permitted(c, s.peers[peer], SubscribeTo(ch)) then answer == Err(PolicyDenied(SubscribeTo(ch)))
      else if ch !in held && |held| >= c.limits.maximumSubscriptions then answer == Err(LimitReached(Limit.Subscriptions))
      else answer.Ok?
    ensures UnsubscribeStep(s, peer, ch).result == if peer in s.peers then Ok(()) else Err(UnknownPeer(peer))
    ensures var answer := RegisterDbusNameStep(c, s, peer, name).result;
      if !ValidDbusName(name) then answer == Err(InvalidDbusName(name))
      else if peer !in s.peers then answer == Err(UnknownPeer(peer))
      else if !Permitted(c, s.peers[peer], RegisterDbusName(name)) then answer == Err(PolicyDenied(RegisterDbusName(name)))
      else if name in s.dbusNames then answer == Err(DbusNameAlreadyOwned(name, s.dbusNames[name]))
      else answer.Ok? && RegisterDbusNameStep(c, s, peer, name).state == s.(dbusNames := s.dbusNames[name := peer])
  {
    hide ValidDbusName;
    assert OwnedNamespaces(s, peer) == set k | k in s.namespaces && s.namespaces[k] == peer;
    assert SubscribedChannels(s, peer) == set k | k in s.subscriptions && peer in s.subscriptions[k];
    assert ch in SubscribedChannels(s, peer) <==> peer in SubscribersOf(s, ch);
  }

  // ---------- A peer leaves ----------

  /** One report for each delivery in `ids`, in ascending order of their identifiers. */
  ghost predicate ReportedInOrder(d: Deliveries, ids: set<MessageId>, events: seq<DeliveryEvent>)
  {
    && |events| == |ids|
    && (forall i :: 0 <= i < |events| ==>
          events[i].Report? && events[i].id in ids && events[i].id in d
          && events[i] == Report(d[events[i].id].sender, events[i].id, RecipientDisconnected))
    && (forall i, j :: 0 <= i < j < |events| ==> events[i].Report? && events[j].Report? && Less(events[i].id, events[j].id))
  }

  lemma {:induction false} ReportsInOrder(d: Deliveries, ids: set<MessageId>)
    requires ids <= d.Keys
    ensures ReportedInOrder(d, ids, Reports(d, ids, RecipientDisconnected))
    decreases |ids|
  {
    hide Less;
    if ids != {} {
      ReportsInOrder(d, ids - {Min(ids)});
    }
  }

  /** The deliveries a leaving peer was to receive end, and no others, in ascending order of their identifiers. */
  lemma LeavingEndsDeliveries(s: State, peer: PeerId)
    requires peer in s.peers
    ensures var ids := set id | id in s.deliveries && peer in s.deliveries[id].recipients;
      var step := Disconnect(s, peer);
      step.state.deliveries == s.deliveries - ids && ReportedInOrder(s.deliveries, ids, step.result.value)
  {
    hide Reports, ReportedInOrder, ReleaseEvents, WithoutOwner, WithoutSubscriber;
    var ids := set id | id in s.deliveries && peer in s.deliveries[id].recipients;
    assert Affected(s.deliveries, peer) == ids;
    ReportsInOrder(s.deliveries, ids);
  }

  ghost predicate ReleasedInOrder(names: set<Namespace>, peer: PeerId, events: seq<LifecycleEvent>)
  {
    && |events| == |names|
    && (forall i :: 0 <= i < |events| ==>
          && events[i].NamespaceOwnerChanged? && events[i].namespace in names
          && events[i] == NamespaceOwnerChanged(events[i].namespace, Some(peer), None))
    && (forall i, j :: 0 <= i < j < |events| ==>
          && events[i].NamespaceOwnerChanged? && events[j].NamespaceOwnerChanged?
          && Less(events[i].namespace, events[j].namespace))
  }

  lemma {:induction false} ReleasesInOrder(names: set<Namespace>, peer: PeerId)
    ensures ReleasedInOrder(names, peer, ReleaseEvents(names, peer))
    decreases |names|
  {
    hide Less, ValidNamespace;
    if names != {} {
      ReleasesInOrder(names - {Min(names)}, peer);
    }
  }

  /** A leaving peer's namespaces are released in ascending order, and only then it is gone. */
  lemma LeavingReleasesNamespaces(s: State, peer: PeerId)
    requires peer in s.peers
    ensures var t := Disconnect(s, peer).state; var names := OwnedNamespaces(s, peer); var n := |s.events|;
      && |t.events| == n + |names| + 1 && t.events[..n] == s.events && t.events[n + |names|] == PeerDisconnected(peer)
      && ReleasedInOrder(names, peer, t.events[n..n + |names|])
  {
    hide ReleaseEvents, ReleasedInOrder, OwnedNamespaces, Reports, Affected, WithoutOwner, WithoutSubscriber;
    var names := OwnedNamespaces(s, peer);
    ReleasesInOrder(names, peer);
    ReleaseCount(names, peer);
    var t, n := Disconnect(s, peer).state, |s.events|;
    assert t.events == s.events + ReleaseEvents(names, peer) + [PeerDisconnected(peer)];
    assert t.events[n..n + |names|] == ReleaseEvents(names, peer);
  }

  lemma ReleaseCount(names: set<Namespace>, peer: PeerId)
    ensures |ReleaseEvents(names, peer)| == |names|
  {
    ReleasesInOrder(names, peer);
  }
}
