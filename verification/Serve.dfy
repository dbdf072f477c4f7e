/**
 Delivery to the connected clients: bounded queues, one list of subscribers,
 and client threads that interleave in any order. Events are numbered by their
 broadcast; a client's queue carries them and the responses to its requests.
 */
module Serve {
  import opened Wrappers

  const OUTBOUND_CAPACITY: nat := 32

  type ClientId = nat
  type WireEvent = string

  datatype Out = Response(id: nat) | Event(index: nat)

  /** A bounded channel. `open` until its receiving end is dropped. */
  datatype Channel = Channel(queue: seq<Out>, open: bool)

  // ---------- Subscribing and broadcasting ----------

  /** `try_send`: a full or closed channel is left as it is. */
  function Offer(ch: Channel, out: Out): Channel {
    if ch.open && |ch.queue| < OUTBOUND_CAPACITY then ch.(queue := ch.queue + [out]) else ch
  }

  function OfferAll(subscribers: seq<ClientId>, channels: map<ClientId, Channel>, out: Out): map<ClientId, Channel> {
    map c | c in channels :: if c in subscribers then Offer(channels[c], out) else channels[c]
  }

  /** The subscribers that stay: all but those whose receiver is gone. */
  function Retained(subscribers: seq<ClientId>, channels: map<ClientId, Channel>): seq<ClientId> {
    if subscribers == [] then []
    else
      var last := subscribers[|subscribers| - 1];
      Retained(subscribers[..|subscribers| - 1], channels)
      + (if last in channels && channels[last].open then [last] else [])
  }

  function Without(subscribers: seq<ClientId>, id: ClientId): seq<ClientId> {
    if subscribers == [] then []
    else
      var last := subscribers[|subscribers| - 1];
      Without(subscribers[..|subscribers| - 1], id) + (if last == id then [] else [last])
  }

  lemma {:induction false} RetainedMembers(subscribers: seq<ClientId>, channels: map<ClientId, Channel>)
    ensures forall c :: c in Retained(subscribers, channels) <==> c in subscribers && c in channels && channels[c].open
    ensures Distinct(subscribers) ==> Distinct(Retained(subscribers, channels))
  {
    if subscribers != [] {
      var front, last := subscribers[..|subscribers| - 1], subscribers[|subscribers| - 1];
      RetainedMembers(front, channels);
      assert subscribers == front + [last];
      if Distinct(subscribers) { assert last !in front; }
    }
  }

  lemma RetainedOfNone(channels: map<ClientId, Channel>)
    ensures Retained([], channels) == []
  {
  }

  lemma RetainedStep(subscribers: seq<ClientId>, i: nat, channels: map<ClientId, Channel>)
    requires i < |subscribers| && subscribers[i] in channels && Distinct(subscribers)
    ensures Retained(subscribers[..i + 1], channels) ==
      Retained(subscribers[..i], channels) + (if channels[subscribers[i]].open then [subscribers[i]] else [])
    ensures subscribers[i] !in subscribers[..i]
    ensures forall c :: c in subscribers[..i + 1] <==> c in subscribers[..i] || c == subscribers[i]
  {
    assert subscribers[..i + 1] == subscribers[..i] + [subscribers[i]];
    assert subscribers[..i + 1][..i] == subscribers[..i];
  }

  lemma {:induction false} WithoutMembers(subscribers: seq<ClientId>, id: ClientId)
    ensures forall c :: c in Without(subscribers, id) <==> c in subscribers && c != id
    ensures Distinct(subscribers) ==> Distinct(Without(subscribers, id))
  {
    if subscribers != [] {
      var front, last := subscribers[..|subscribers| - 1], subscribers[|subscribers| - 1];
      WithoutMembers(front, id);
      assert subscribers == front + [last];
      if Distinct(subscribers) { assert last !in front; }
    }
  }

  predicate Distinct(ids: seq<ClientId>) {
    forall i, j :: 0 <= i < j < |ids| ==> ids[i] != ids[j]
  }

  lemma DistinctSnoc(ids: seq<ClientId>, id: ClientId)
    requires Distinct(ids) && forall c <- ids :: c != id
    ensures Distinct(ids + [id])
  {
    assert forall i :: 0 <= i < |ids| ==> ids[i] in ids;
  }

  /** The shared lists of the server, each operation under its lock. */
  class Shared {
    var subscribers: seq<ClientId>
    var channels: map<ClientId, Channel>
    var nextSubscriber: nat

    ghost predicate Valid()
      reads this
    {
      && Distinct(subscribers)
      && (forall c <- subscribers :: c in channels)
      && (forall c <- channels :: c < nextSubscriber)
    }

    constructor ()
      ensures Valid() && subscribers == [] && channels == map[] && nextSubscriber == 1
    {
      subscribers, channels, nextSubscriber := [], map[], 1;
    }

    method Subscribe() returns (id: ClientId)
      requires Valid()
      modifies this
      ensures Valid() && id == old(nextSubscriber) && id !in old(channels)
      ensures subscribers == old(subscribers) + [id]
      ensures channels == old(channels)[id := Channel([], true)]
      ensures nextSubscriber == old(nextSubscriber) + 1
    {
      id := nextSubscriber;
      DistinctSnoc(subscribers, id);
      nextSubscriber := nextSubscriber + 1;
      channels := channels[id := Channel([], true)];
      subscribers := subscribers + [id];
    }

    method Unsubscribe(id: ClientId)
      requires Valid()
      modifies this`subscribers
      ensures Valid() && subscribers == Without(old(subscribers), id)
    {
      var kept := [];
      WithoutMembers(subscribers, id);
      assert subscribers[..|subscribers|] == subscribers;
      for i := 0 to |subscribers|
        invariant subscribers == old(subscribers) && kept == Without(subscribers[..i], id)
      {
        assert subscribers[..i + 1][..i] == subscribers[..i];
        if subscribers[i] != id {
          kept := kept + [subscribers[i]];
        }
      }
      subscribers := kept;
    }

    /** `broadcast`: one `try_send` to each subscriber, dropping those whose receiver is gone. */
    method Broadcast(out: Out)
      requires Valid()
      modifies this`subscribers, this`channels
      ensures Valid()
      ensures channels == OfferAll(old(subscribers), old(channels), out)
      ensures subscribers == Retained(old(subscribers), old(channels))
    {
      hide Retained, Offer;
      ghost var before := channels;
      var kept := [];
      RetainedMembers(subscribers, channels);
      RetainedOfNone(channels);
      assert subscribers[..|subscribers|] == subscribers;
      for i := 0 to |subscribers|
        invariant subscribers == old(subscribers) && channels.Keys == before.Keys
        invariant kept == Retained(subscribers[..i], before)
        invariant forall c <- channels :: channels[c] == if c in subscribers[..i] then Offer(before[c], out) else before[c]
      {
        var c := subscribers[i];
        RetainedStep(subscribers, i, before);
        if channels[c].open {
          kept := kept + [c];
        }
        channels := channels[c := Offer(channels[c], out)];
      }
      subscribers := kept;
    }
  }

  // ---------- Client threads ----------

  /** Where a client's thread stands: subscribed but not greeted, serving, or on its way out. */
  datatype Phase = Greeting | Serving | Leaving

  /** A request being answered: the events to broadcast before its answer, and those that follow it up. */
  datatype Work = Work(request: nat, events: seq<WireEvent>, later: seq<WireEvent>)

  /**
   One client thread, with what it and its channel have been through: `later`,
   the follow-up of its last request still to be broadcast; requests read and how
   many are answered; all the channel ever took, and what reached the socket;
   broadcasts since it subscribed, and those missed; for each request the
   broadcasts it caused and those that followed it up; for each answer its place
   in `accepted`, and how many broadcasts there had been.
   */
  datatype Client = Client(
    phase: Phase,
    work: Option<Work>,
    later: seq<WireEvent>,
    requests: seq<nat>,
    answered: nat,
    accepted: seq<Out>,
    stream: seq<Out>,
    since: nat,
    missed: set<nat>,
    caused: seq<seq<nat>>,
    followed: seq<seq<nat>>,
    answeredAt: seq<nat>,
    answeredWhen: seq<nat>)

  datatype Server = Server(
    subscribers: seq<ClientId>,
    channels: map<ClientId, Channel>,
    next: ClientId,
    clients: map<ClientId, Client>,
    log: seq<WireEvent>)

  const INITIAL: Server := Server([], map[], 1, map[], [])

  datatype Op =
    | Connect
    | HelloOk(c: ClientId)
    | HelloFails(c: ClientId)
    | ReadRequest(c: ClientId, request: nat, events: seq<WireEvent>, later: seq<WireEvent>)
    | BroadcastNext(c: ClientId)
    | Respond(c: ClientId)
    | RespondFails(c: ClientId)
    | FollowUp(c: ClientId)
    | Background(event: WireEvent)
    | Write(c: ClientId)
    | WriteFails(c: ClientId)
    | HangUp(c: ClientId)
    | Unsubscribe(c: ClientId)

  /** What a broadcast does to the record of one client. */
  function Hear(s: Server, c: ClientId): Client
    requires c in s.clients
  {
    var k := s.clients[c];
    if c !in s.subscribers || c !in s.channels || !s.channels[c].open then k
    else if |s.channels[c].queue| < OUTBOUND_CAPACITY then k.(accepted := k.accepted + [Event(|s.log|)])
    else k.(missed := k.missed + {|s.log|})
  }

  function Broadcast(s: Server, event: WireEvent): Server {
    s.(
      channels := OfferAll(s.subscribers, s.channels, Event(|s.log|)),
      subscribers := Retained(s.subscribers, s.channels),
      clients := map c | c in s.clients :: Hear(s, c),
      log := s.log + [event])
  }

  function AddToLast(lists: seq<seq<nat>>, e: nat): (r: seq<seq<nat>>)
    ensures |r| == |lists|
    ensures forall q :: 0 <= q < |r| ==> r[q] == if q == |lists| - 1 then lists[q] + [e] else lists[q]
  {
    if lists == [] then [] else lists[..|lists| - 1] + [lists[|lists| - 1] + [e]]
  }

  function SetClient(s: Server, c: ClientId, k: Client): Server {
    s.(clients := s.clients[c := k])
  }

  function SetChannel(s: Server, c: ClientId, ch: Channel): Server {
    s.(channels := s.channels[c := ch])
  }

  /** When a thread can take its step; a response waits while the client's queue is full. */
  predicate Enabled(s: Server, op: Op) {
    match op
    case Connect => true
    case Background(_) => true
    case _ =>
      && op.c in s.clients && op.c in s.channels
      && var k, ch := s.clients[op.c], s.channels[op.c];
      match op
      case HelloOk(_) => k.phase == Greeting
      case HelloFails(_) => k.phase == Greeting
      case ReadRequest(_, _, _, _) => k.phase == Serving && k.work.None? && k.later == []
      case BroadcastNext(_) => k.phase == Serving && k.work.Some? && k.work.value.events != []
      case Respond(_) =>
        k.phase == Serving && k.work.Some? && k.work.value.events == [] && ch.open && |ch.queue| < OUTBOUND_CAPACITY
      case RespondFails(_) => k.phase == Serving && k.work.Some? && k.work.value.events == [] && !ch.open
      case Write(_) => ch.open && ch.queue != []
      case WriteFails(_) => ch.open && ch.queue != []
      case FollowUp(_) => k.work.None? && k.later != []
      case HangUp(_) => k.phase == Serving && k.work.None? && k.later == []
      case Unsubscribe(_) => k.phase == Leaving && k.later == []
      case _ => true
  }

  function Next(s: Server, op: Op): Server
    requires Enabled(s, op)
  {
    match op
    case Connect =>
      s.(subscribers := s.subscribers + [s.next],
         channels := s.channels[s.next := Channel([], true)],
         clients := s.clients[s.next := Client(Greeting, None, [], [], 0, [], [], |s.log|, {}, [], [], [], [])],
         next := s.next + 1)
    case HelloOk(c) => SetClient(s, c, s.clients[c].(phase := Serving))
    case HelloFails(c) => SetClient(s, c, s.clients[c].(phase := Leaving))
    case ReadRequest(c, request, events, later) =>
      var k := s.clients[c];
      SetClient(s, c, k.(
        work := Some(Work(request, events, later)),
        requests := k.requests + [request],
        caused := k.caused + [[]],
        followed := k.followed + [[]]))
    case BroadcastNext(c) =>
      var told := Broadcast(s, s.clients[c].work.value.events[0]);
      var k := told.clients[c];
      SetClient(told, c, k.(
        work := Some(k.work.value.(events := k.work.value.events[1..])),
        caused := AddToLast(k.caused, |s.log|)))
    case Respond(c) =>
      var k := s.clients[c];
      var out := Response(k.work.value.request);
      SetClient(SetChannel(s, c, Offer(s.channels[c], out)), c, k.(
        work := None,
        later := k.work.value.later,
        answered := k.answered + 1,
        accepted := k.accepted + [out],
        answeredAt := k.answeredAt + [|k.accepted|],
        answeredWhen := k.answeredWhen + [|s.log|]))
    case RespondFails(c) =>
      var k := s.clients[c];
      SetClient(s, c, k.(work := None, later := k.work.value.later, phase := Leaving))
    case FollowUp(c) =>
      var told := Broadcast(s, s.clients[c].later[0]);
      var k := told.clients[c];
      SetClient(told, c, k.(
        later := if k.later == [] then [] else k.later[1..],
        followed := AddToLast(k.followed, |s.log|)))
    case Background(event) => Broadcast(s, event)
    case Write(c) =>
      var ch := s.channels[c];
      SetClient(SetChannel(s, c, ch.(queue := ch.queue[1..])), c,
        s.clients[c].(stream := s.clients[c].stream + [ch.queue[0]]))
    case WriteFails(c) => SetChannel(s, c, Channel([], false))
    case HangUp(c) => SetClient(s, c, s.clients[c].(phase := Leaving))
    case Unsubscribe(c) => s.(subscribers := Without(s.subscribers, c))
  }

  // ---------- What every reachable state keeps ----------

  function Responses(items: seq<Out>): seq<nat> {
    if items == [] then []
    else
      var last := items[|items| - 1];
      Responses(items[..|items| - 1]) + (if last.Response? then [last.id] else [])
  }

  predicate HasEvent(items: seq<Out>, index: nat) {
    Event(index) in items
  }

  /** Events appear in the order of their broadcast, none twice. */
  ghost predicate InOrder(items: seq<Out>) {
    forall i, j :: 0 <= i < j < |items| && items[i].Event? && items[j].Event? ==> items[i].index < items[j].index
  }

  /** The channel is what its client's record says: all it took, less what reached the socket. */
  ghost predicate ChannelMatches(k: Client, ch: Channel) {
    && |ch.queue| <= OUTBOUND_CAPACITY
    && (ch.open ==> k.accepted == k.stream + ch.queue)
    && k.stream <= k.accepted
  }

  /** Every request has one response, in order, but for the one being worked on or lost with the connection. */
  ghost predicate AnswersInOrder(k: Client) {
    && k.answered <= |k.requests| <= k.answered + 1
    && Responses(k.accepted) == k.requests[..k.answered]
    && (k.work.Some? ==> k.phase == Serving && |k.requests| == k.answered + 1 && k.work.value.request == k.requests[k.answered])
    && (k.work.None? && k.phase == Serving ==> |k.requests| == k.answered)
    && (k.phase == Greeting ==> k.requests == [])
  }

  /** Broadcasts since subscribing are each taken or missed; none is invented. */
  ghost predicate HearsAll(k: Client, logLength: nat, subscribed: bool) {
    && k.since <= logLength
    && InOrder(k.accepted)
    && (forall i: nat :: HasEvent(k.accepted, i) ==> k.since <= i < logLength && i !in k.missed)
    && (forall i <- k.missed :: k.since <= i < logLength)
    && (subscribed ==> forall i: nat :: k.since <= i < logLength ==> HasEvent(k.accepted, i) || i in k.missed)
  }

  /**
   Answer `q` stands in the stream at the moment it was given: behind the
   broadcasts made by then, unless they were missed, and before all others.
   */
  ghost predicate SplitAt(k: Client, q: nat)
    requires q < |k.answeredAt| && q < |k.answeredWhen| && k.answeredAt[q] <= |k.accepted|
  {
    var before, when := k.accepted[..k.answeredAt[q]], k.answeredWhen[q];
    forall e: nat ::
      && (HasEvent(before, e) ==> e < when)
      && (k.since <= e < when ==> HasEvent(before, e) || e in k.missed)
  }

  ghost predicate StandsAt(k: Client, q: nat, logLength: nat) {
    && q < |k.answeredAt| && q < |k.answeredWhen| && q < |k.requests|
    && k.answeredAt[q] < |k.accepted| && k.answeredWhen[q] <= logLength
    && k.accepted[k.answeredAt[q]] == Response(k.requests[q])
    && SplitAt(k, q)
  }

  ghost predicate Splits(k: Client, logLength: nat) {
    && |k.answeredAt| == |k.answeredWhen| == k.answered <= |k.requests|
    && forall q: nat :: q < k.answered ==> StandsAt(k, q, logLength)
  }

  /** What a request caused was broadcast before its answer, and what followed it up after; the next one has not come yet. */
  ghost predicate InTurn(k: Client, logLength: nat) {
    && |k.caused| == |k.followed| == |k.requests| && |k.answeredWhen| == k.answered <= |k.requests|
    && (k.work.Some? ==> k.followed != [] && k.followed[|k.followed| - 1] == [])
    && (forall q, e :: 0 <= q < |k.caused| && e in k.caused[q] ==>
          && k.since <= e < logLength
          && (q < k.answered ==> e < k.answeredWhen[q])
          && (0 < q <= k.answered ==> k.answeredWhen[q - 1] <= e))
    && (forall q, e :: 0 <= q < |k.followed| && e in k.followed[q] ==>
          && k.since <= e < logLength
          && (q < k.answered ==> k.answeredWhen[q] <= e)
          && (q + 1 < k.answered ==> e < k.answeredWhen[q + 1]))
  }

  ghost predicate ClientInvariant(s: Server, c: ClientId)
    requires c in s.clients
  {
    var k := s.clients[c];
    && c in s.channels && c < s.next
    && ChannelMatches(k, s.channels[c])
    && AnswersInOrder(k)
    && HearsAll(k, |s.log|, c in s.subscribers)
    && Splits(k, |s.log|)
    && InTurn(k, |s.log|)
    && (k.phase != Leaving && s.channels[c].open ==> c in s.subscribers)
  }

  ghost predicate Invariant(s: Server) {
    && Distinct(s.subscribers)
    && (forall c <- s.subscribers :: c in s.clients)
    && (forall c <- s.clients :: ClientInvariant(s, c))
  }

  // ---------- One step ----------

  lemma ResponsesSnoc(items: seq<Out>, out: Out)
    ensures Responses(items + [out]) == Responses(items) + (if out.Response? then [out.id] else [])
  {
    assert (items + [out])[..|items|] == items;
  }

  /** A client is untouched when its own record, channel and place in the list are. */
  lemma Unaffected(s: Server, s': Server, c: ClientId)
    requires c in s.clients && ClientInvariant(s, c)
    requires c in s'.clients && c in s'.channels && s'.clients[c] == s.clients[c] && s'.channels[c] == s.channels[c]
    requires |s'.log| == |s.log| && s'.next >= s.next && (c in s'.subscribers <==> c in s.subscribers)
    ensures ClientInvariant(s', c)
  {
  }

  /** Items at the end of the stream, and more requests, disturb no earlier answer. */
  lemma SplitsStay(k: Client, k': Client, logLength: nat, logLength': nat)
    requires Splits(k, logLength) && logLength <= logLength' && k.requests <= k'.requests
    requires k.accepted <= k'.accepted && k.missed <= k'.missed && k'.since == k.since
    requires k'.answeredAt == k.answeredAt && k'.answeredWhen == k.answeredWhen && k'.answered == k.answered
    ensures Splits(k', logLength')
  {
    hide StandsAt;
    forall q: nat | q < k'.answered ensures StandsAt(k', q, logLength') {
      assert StandsAt(k, q, logLength);
      AnswerStays(k, k', q, logLength, logLength');
    }
  }

  lemma AnswerStays(k: Client, k': Client, q: nat, logLength: nat, logLength': nat)
    requires StandsAt(k, q, logLength) && logLength <= logLength' && k.requests <= k'.requests
    requires k.accepted <= k'.accepted && k.missed <= k'.missed && k'.since == k.since
    requires q < |k'.answeredAt| && q < |k'.answeredWhen|
    requires k'.answeredAt[q] == k.answeredAt[q] && k'.answeredWhen[q] == k.answeredWhen[q]
    ensures StandsAt(k', q, logLength')
  {
    var at := k.answeredAt[q];
    assert k'.accepted[..at] == k.accepted[..at] && k'.accepted[at] == k.accepted[at];
  }

  lemma InTurnStays(k: Client, k': Client, logLength: nat, logLength': nat)
    requires InTurn(k, logLength) && logLength <= logLength' && (k'.work.Some? ==> k.work.Some?)
    requires |k'.requests| == |k.requests| && k'.since == k.since
    requires k'.caused == k.caused && k'.followed == k.followed
    requires k'.answered == k.answered && k'.answeredWhen == k.answeredWhen
    ensures InTurn(k', logLength')
  {
  }

  lemma AcceptedEvent(k: Client, n: nat)
    requires HearsAll(k, n, true)
    ensures HearsAll(k.(accepted := k.accepted + [Event(n)]), n + 1, true)
  {
    var items := k.accepted + [Event(n)];
    forall i, j | 0 <= i < j < |items| && items[i].Event? && items[j].Event?
      ensures items[i].index < items[j].index
    {
      if j == |k.accepted| { assert HasEvent(k.accepted, items[i].index); }
    }
    forall i: nat ensures HasEvent(items, i) <==> HasEvent(k.accepted, i) || i == n {
      assert Event(i) in items <==> Event(i) in k.accepted || Event(i) == Event(n);
    }
  }

  lemma MissedEvent(k: Client, n: nat)
    requires HearsAll(k, n, true)
    ensures HearsAll(k.(missed := k.missed + {n}), n + 1, true)
  {
  }

  /**
   What a broadcast does to a client depends on that client alone: on whether it
   is subscribed, and on its own channel. A full channel misses the event, a
   closed one leaves the list; neither reaches anyone else.
   */
  lemma BroadcastIsLocal(s: Server, event: WireEvent, c: ClientId)
    requires c in s.clients && c in s.channels
    ensures var s', k, ch, n := Broadcast(s, event), s.clients[c], s.channels[c], |s.log|;
      && |s'.log| == n + 1
      && c in s'.clients && c in s'.channels
      && (c in s'.subscribers <==> c in s.subscribers && ch.open)
      && if c !in s.subscribers || !ch.open then s'.clients[c] == k && s'.channels[c] == ch
         else if |ch.queue| < OUTBOUND_CAPACITY then
           s'.clients[c] == k.(accepted := k.accepted + [Event(n)]) && s'.channels[c] == ch.(queue := ch.queue + [Event(n)])
         else s'.clients[c] == k.(missed := k.missed + {n}) && s'.channels[c] == ch
  {
    RetainedMembers(s.subscribers, s.channels);
  }

  /** One broadcast more, for a client that takes it, misses it, or is out of reach. */
  lemma HeardBy(k: Client, k': Client, ch: Channel, ch': Channel, n: nat, subscribed: bool)
    requires ChannelMatches(k, ch) && AnswersInOrder(k) && HearsAll(k, n, subscribed)
    requires if !subscribed || !ch.open then k' == k && ch' == ch
      else if |ch.queue| < OUTBOUND_CAPACITY then
        k' == k.(accepted := k.accepted + [Event(n)]) && ch' == ch.(queue := ch.queue + [Event(n)])
      else k' == k.(missed := k.missed + {n}) && ch' == ch
    ensures ChannelMatches(k', ch') && AnswersInOrder(k') && HearsAll(k', n + 1, subscribed && ch.open)
  {
    hide HearsAll, AnswersInOrder;
    if !subscribed || !ch.open {
      NotSubscribed(k, n, subscribed);
    } else if |ch.queue| < OUTBOUND_CAPACITY {
      AcceptedEvent(k, n);
      EventIsNoAnswer(k, n);
      assert k.stream + (ch.queue + [Event(n)]) == k.stream + ch.queue + [Event(n)];
    } else {
      MissedEvent(k, n);
      MissIsNoAnswer(k, n);
    }
  }

  lemma BroadcastKeepsClient(s: Server, event: WireEvent, c: ClientId)
    requires c in s.clients && ClientInvariant(s, c)
    ensures ClientInvariant(Broadcast(s, event), c)
  {
    var k, ch, n := s.clients[c], s.channels[c], |s.log|;
    BroadcastIsLocal(s, event, c);
    var s' := Broadcast(s, event);
    assert s'.next == s.next;
    hide Broadcast, Splits, InTurn, HearsAll, AnswersInOrder, ChannelMatches;
    HeardBy(k, s'.clients[c], ch, s'.channels[c], n, c in s.subscribers);
    SplitsStay(k, s'.clients[c], n, n + 1);
    InTurnStays(k, s'.clients[c], n, n + 1);
  }

  lemma EventIsNoAnswer(k: Client, n: nat)
    requires AnswersInOrder(k)
    ensures AnswersInOrder(k.(accepted := k.accepted + [Event(n)]))
  {
    ResponsesSnoc(k.accepted, Event(n));
  }

  lemma MissIsNoAnswer(k: Client, n: nat)
    requires AnswersInOrder(k)
    ensures AnswersInOrder(k.(missed := k.missed + {n}))
  {
  }

  lemma NotSubscribed(k: Client, n: nat, subscribed: bool)
    requires HearsAll(k, n, subscribed)
    ensures HearsAll(k, n + 1, false) && HearsAll(k, n, false)
  {
  }

  lemma BroadcastKeepsInvariant(s: Server, event: WireEvent)
    requires Invariant(s)
    ensures Invariant(Broadcast(s, event))
  {
    hide ClientInvariant;
    RetainedMembers(s.subscribers, s.channels);
    forall c <- s.clients ensures ClientInvariant(Broadcast(s, event), c) {
      BroadcastKeepsClient(s, event, c);
    }
  }

  /** A step of one client's own thread or writer leaves every other client as it was. */
  lemma OthersUnaffected(s: Server, s': Server, c: ClientId)
    requires Invariant(s) && c in s.clients && c in s'.clients
    requires s'.clients.Keys == s.clients.Keys && s'.channels.Keys == s.channels.Keys
    requires forall d <- s.clients :: d != c ==> s'.clients[d] == s.clients[d]
    requires forall d <- s.channels :: d != c ==> s'.channels[d] == s.channels[d]
    requires s'.log == s.log && s'.next == s.next
    requires Distinct(s'.subscribers) && forall d :: d in s'.subscribers ==> d in s.subscribers
    requires forall d :: d in s.subscribers && d != c ==> d in s'.subscribers
    requires ClientInvariant(s', c)
    ensures Invariant(s')
  {
    forall d <- s'.clients ensures ClientInvariant(s', d) {
      if d != c { Unaffected(s, s', d); }
    }
  }

  lemma ConnectKeepsInvariant(s: Server)
    requires Invariant(s)
    ensures Invariant(Next(s, Connect))
  {
    var s' := Next(s, Connect);
    assert forall d <- s.subscribers :: d in s.clients && ClientInvariant(s, d);
    DistinctSnoc(s.subscribers, s.next);
    forall d <- s'.clients ensures ClientInvariant(s', d) {
      if d != s.next {
        assert ClientInvariant(s, d);
        Unaffected(s, s', d);
      }
    }
  }

  /** An answer given: the record of the client with the response at the end of its channel. */
  function Answered(k: Client, logLength: nat): Client
    requires k.work.Some?
  {
    k.(work := None, later := k.work.value.later, answered := k.answered + 1,
       accepted := k.accepted + [Response(k.work.value.request)],
       answeredAt := k.answeredAt + [|k.accepted|], answeredWhen := k.answeredWhen + [logLength])
  }

  lemma RespondKeepsClient(k: Client, logLength: nat)
    requires k.work.Some? && AnswersInOrder(k) && HearsAll(k, logLength, true) && Splits(k, logLength) && InTurn(k, logLength)
    ensures var k' := Answered(k, logLength);
      AnswersInOrder(k') && HearsAll(k', logLength, true) && Splits(k', logLength) && InTurn(k', logLength)
  {
    var out := Response(k.work.value.request);
    var k' := Answered(k, logLength);
    ResponsesSnoc(k.accepted, out);
    assert k.requests[..k.answered + 1] == k.requests[..k.answered] + [k.requests[k.answered]];
    RespondHears(k, logLength);
    RespondSplits(k, logLength);
    RespondInTurn(k, logLength);
  }

  lemma RespondInTurn(k: Client, logLength: nat)
    requires k.work.Some? && AnswersInOrder(k) && Splits(k, logLength) && InTurn(k, logLength)
    ensures InTurn(Answered(k, logLength), logLength)
  {
    AnswersBefore(k, logLength);
    var k' := Answered(k, logLength);
    assert k'.answeredWhen[k.answered] == logLength;
    assert forall q :: 0 <= q < k.answered ==> k'.answeredWhen[q] == k.answeredWhen[q];
    forall q, e | 0 <= q < |k'.caused| && e in k'.caused[q]
      ensures k.since <= e < logLength && (q < k'.answered ==> e < k'.answeredWhen[q])
      ensures 0 < q <= k'.answered ==> k'.answeredWhen[q - 1] <= e
    {
      assert e in k.caused[q] && q <= k.answered;
    }
    forall q, e | 0 <= q < |k'.followed| && e in k'.followed[q]
      ensures k.since <= e < logLength && (q < k'.answered ==> k'.answeredWhen[q] <= e)
      ensures q + 1 < k'.answered ==> e < k'.answeredWhen[q + 1]
    {
      assert e in k.followed[q] && q < k.answered;
    }
  }

  lemma RespondHears(k: Client, logLength: nat)
    requires k.work.Some? && HearsAll(k, logLength, true)
    ensures HearsAll(Answered(k, logLength), logLength, true)
  {
    var k' := Answered(k, logLength);
    forall i: nat ensures HasEvent(k'.accepted, i) <==> HasEvent(k.accepted, i) {
      assert Event(i) in k'.accepted <==> Event(i) in k.accepted || Event(i) == k'.accepted[|k.accepted|];
    }
  }

  lemma RespondSplits(k: Client, logLength: nat)
    requires k.work.Some? && AnswersInOrder(k) && HearsAll(k, logLength, true) && Splits(k, logLength)
    ensures Splits(Answered(k, logLength), logLength)
  {
    hide StandsAt;
    var k' := Answered(k, logLength);
    forall q: nat | q < k'.answered ensures StandsAt(k', q, logLength) {
      if q < k.answered {
        assert StandsAt(k, q, logLength);
        AnswerStays(k, k', q, logLength, logLength);
      } else {
        NewAnswerStands(k, logLength);
      }
    }
  }

  lemma NewAnswerStands(k: Client, logLength: nat)
    requires k.work.Some? && AnswersInOrder(k) && HearsAll(k, logLength, true)
    requires |k.answeredAt| == |k.answeredWhen| == k.answered
    ensures StandsAt(Answered(k, logLength), k.answered, logLength)
  {
    assert Answered(k, logLength).accepted[..|k.accepted|] == k.accepted;
  }

  lemma RespondKeepsInvariant(s: Server, c: ClientId)
    requires Invariant(s) && Enabled(s, Respond(c))
    ensures Invariant(Next(s, Respond(c)))
  {
    hide Splits, InTurn, HearsAll, AnswersInOrder;
    var k, s' := s.clients[c], Next(s, Respond(c));
    assert ClientInvariant(s, c);
    RespondKeepsClient(k, |s.log|);
    var out := Response(k.work.value.request);
    assert k.stream + s.channels[c].queue + [out] == k.stream + (s.channels[c].queue + [out]);
    OthersUnaffected(s, s', c);
  }

  lemma HearsAllIgnoresThread(k: Client, k': Client, logLength: nat, subscribed: bool)
    requires HearsAll(k, logLength, subscribed)
    requires k'.since == k.since && k'.accepted == k.accepted && k'.missed == k.missed
    ensures HearsAll(k', logLength, subscribed)
  {
  }

  lemma BroadcastNextKeepsInvariant(s: Server, c: ClientId)
    requires Invariant(s) && Enabled(s, BroadcastNext(c))
    ensures Invariant(Next(s, BroadcastNext(c)))
  {
    hide Hear, OfferAll, Retained, Splits, InTurn, HearsAll, AnswersInOrder;
    var event, n := s.clients[c].work.value.events[0], |s.log|;
    assert ClientInvariant(s, c);
    SinceIsPast(s.clients[c], n, c in s.subscribers);
    BroadcastKeepsInvariant(s, event);
    var told := Broadcast(s, event);
    assert ClientInvariant(told, c);
    BroadcastKeepsThread(s, event, c);
    var k := told.clients[c];
    var k' := k.(work := Some(k.work.value.(events := k.work.value.events[1..])), caused := AddToLast(k.caused, n));
    CauseKeepsWhole(s.clients[c], k, k', n, c in told.subscribers);
    OthersUnaffected(told, SetClient(told, c, k'), c);
  }

  lemma FollowUpKeepsInvariant(s: Server, c: ClientId)
    requires Invariant(s) && Enabled(s, FollowUp(c))
    ensures Invariant(Next(s, FollowUp(c)))
  {
    hide Hear, OfferAll, Retained, Splits, InTurn, HearsAll, AnswersInOrder;
    var event, n := s.clients[c].later[0], |s.log|;
    assert ClientInvariant(s, c);
    SinceIsPast(s.clients[c], n, c in s.subscribers);
    BroadcastKeepsInvariant(s, event);
    var told := Broadcast(s, event);
    assert ClientInvariant(told, c);
    BroadcastKeepsThread(s, event, c);
    var k := told.clients[c];
    var k' := k.(later := k.later[1..], followed := AddToLast(k.followed, n));
    FollowKeepsWhole(s.clients[c], k, k', n, c in told.subscribers);
    OthersUnaffected(told, SetClient(told, c, k'), c);
  }

  lemma SinceIsPast(k: Client, n: nat, subscribed: bool)
    requires HearsAll(k, n, subscribed)
    ensures k.since <= n
  {
  }

  lemma BroadcastKeepsThread(s: Server, event: WireEvent, c: ClientId)
    requires c in s.clients
    ensures var k, k' := s.clients[c], Broadcast(s, event).clients[c];
      && k'.work == k.work && k'.later == k.later && k'.phase == k.phase && k'.since == k.since
      && k'.requests == k.requests && k'.answered == k.answered && k'.answeredWhen == k.answeredWhen
      && k'.caused == k.caused && k'.followed == k.followed
  {
  }

  /** Noting broadcast `n` as caused by the request in hand: every answer so far was given before it. */
  lemma CauseKeepsWhole(before: Client, k: Client, k': Client, n: nat, subscribed: bool)
    requires k.work.Some? && InTurn(before, n) && Splits(before, n) && before.since == k.since <= n
    requires before.answered == k.answered && before.answeredWhen == k.answeredWhen
    requires AnswersInOrder(k) && HearsAll(k, n + 1, subscribed) && Splits(k, n + 1) && InTurn(k, n + 1)
    requires k' == k.(work := k'.work, caused := AddToLast(k.caused, n))
    requires k'.work.Some? && k'.work.value.request == k.work.value.request
    ensures AnswersInOrder(k') && Splits(k', n + 1) && InTurn(k', n + 1) && HearsAll(k', n + 1, subscribed)
  {
    AnswersBefore(before, n);
    HearsAllIgnoresThread(k, k', n + 1, subscribed);
    SplitsStay(k, k', n + 1, n + 1);
    hide HearsAll, Splits;
  }

  /** Noting broadcast `n` as a follow-up of the last request, which was answered before it or never will be. */
  lemma FollowKeepsWhole(before: Client, k: Client, k': Client, n: nat, subscribed: bool)
    requires k.work.None? && InTurn(before, n) && Splits(before, n) && before.since == k.since <= n
    requires before.answered == k.answered && before.answeredWhen == k.answeredWhen
    requires AnswersInOrder(k) && HearsAll(k, n + 1, subscribed) && Splits(k, n + 1) && InTurn(k, n + 1)
    requires k' == k.(later := k'.later, followed := AddToLast(k.followed, n))
    ensures AnswersInOrder(k') && Splits(k', n + 1) && InTurn(k', n + 1) && HearsAll(k', n + 1, subscribed)
  {
    AnswersBefore(before, n);
    HearsAllIgnoresThread(k, k', n + 1, subscribed);
    SplitsStay(k, k', n + 1, n + 1);
    hide HearsAll, Splits;
  }

  lemma AnswersBefore(k: Client, n: nat)
    requires Splits(k, n)
    ensures |k.answeredWhen| == k.answered && forall q :: 0 <= q < k.answered ==> k.answeredWhen[q] <= n
  {
    forall q: nat | q < k.answered ensures k.answeredWhen[q] <= n {
      assert StandsAt(k, q, n);
    }
  }

  lemma WriterKeepsInvariant(s: Server, op: Op)
    requires Invariant(s) && (op.Write? || op.WriteFails?) && Enabled(s, op)
    ensures Invariant(Next(s, op))
  {
    hide Splits, InTurn, HearsAll, AnswersInOrder;
    var c := op.c;
    assert ClientInvariant(s, c);
    var k, k' := s.clients[c], Next(s, op).clients[c];
    var queue := s.channels[c].queue;
    assert k.stream + queue == k.stream + [queue[0]] + queue[1..];
    StreamIsNotRecord(k, k', |s.log|, c in s.subscribers);
    OthersUnaffected(s, Next(s, op), c);
  }

  lemma StreamIsNotRecord(k: Client, k': Client, logLength: nat, subscribed: bool)
    requires AnswersInOrder(k) && HearsAll(k, logLength, subscribed) && Splits(k, logLength) && InTurn(k, logLength)
    requires k' == k.(stream := k'.stream)
    ensures AnswersInOrder(k') && HearsAll(k', logLength, subscribed) && Splits(k', logLength) && InTurn(k', logLength)
  {
    HearsAllIgnoresThread(k, k', logLength, subscribed);
    SplitsStay(k, k', logLength, logLength);
    InTurnStays(k, k', logLength, logLength);
    hide HearsAll, Splits, InTurn;
  }

  /** Reading, greeting and leaving, seen by the client's own record. */
  lemma ThreadKeepsClient(k: Client, k': Client, op: Op, logLength: nat, subscribed: bool)
    requires AnswersInOrder(k) && HearsAll(k, logLength, subscribed) && Splits(k, logLength) && InTurn(k, logLength)
    requires match op
      case HelloOk(_) => k.phase == Greeting && k' == k.(phase := Serving)
      case HelloFails(_) => k.phase == Greeting && k' == k.(phase := Leaving)
      case ReadRequest(_, request, events, later) =>
        && k.phase == Serving && k.work.None?
        && k' == k.(work := Some(Work(request, events, later)), requests := k.requests + [request],
                    caused := k.caused + [[]], followed := k.followed + [[]])
      case RespondFails(_) => k.phase == Serving && k' == k.(work := None, later := k'.later, phase := Leaving)
      case HangUp(_) => k.work.None? && k' == k.(phase := Leaving)
      case _ => k' == k
    ensures AnswersInOrder(k') && HearsAll(k', logLength, subscribed) && Splits(k', logLength) && InTurn(k', logLength)
  {
    HearsAllIgnoresThread(k, k', logLength, subscribed);
    SplitsStay(k, k', logLength, logLength);
    assert |k.caused| == |k.followed| == |k.requests|;
    hide HearsAll, Splits, InTurn;
    assert k'.requests[..k.answered] == k.requests[..k.answered];
    if op.ReadRequest? { NewRequestInTurn(k, k', logLength); } else { InTurnStays(k, k', logLength, logLength); }
  }

  lemma NewRequestInTurn(k: Client, k': Client, logLength: nat)
    requires InTurn(k, logLength) && k.answered == |k.requests| && k'.work.Some? && |k'.requests| == |k.requests| + 1
    requires k'.caused == k.caused + [[]] && k'.followed == k.followed + [[]]
    requires k'.since == k.since && k'.answered == k.answered && k'.answeredWhen == k.answeredWhen
    ensures InTurn(k', logLength)
  {
    forall q, e | 0 <= q < |k'.caused| && e in k'.caused[q]
      ensures k.since <= e < logLength && (q < k.answered ==> e < k.answeredWhen[q])
      ensures 0 < q <= k.answered ==> k.answeredWhen[q - 1] <= e
    {
      assert q < |k.caused| && e in k.caused[q];
    }
    forall q, e | 0 <= q < |k'.followed| && e in k'.followed[q]
      ensures k.since <= e < logLength && (q < k.answered ==> k.answeredWhen[q] <= e)
      ensures q + 1 < k.answered ==> e < k.answeredWhen[q + 1]
    {
      assert q < |k.followed| && e in k.followed[q];
    }
  }

  lemma ThreadKeepsInvariant(s: Server, op: Op)
    requires Invariant(s) && Enabled(s, op)
    requires op.HelloOk? || op.HelloFails? || op.ReadRequest? || op.RespondFails? || op.HangUp? || op.Unsubscribe?
    ensures Invariant(Next(s, op))
  {
    hide Splits, InTurn, HearsAll, AnswersInOrder, Without;
    var c := op.c;
    assert ClientInvariant(s, c);
    var k, s' := s.clients[c], Next(s, op);
    WithoutMembers(s.subscribers, c);
    if op.Unsubscribe? {
      NotSubscribed(k, |s.log|, c in s.subscribers);
    } else {
      ThreadKeepsClient(k, s'.clients[c], op, |s.log|, c in s.subscribers);
    }
    OthersUnaffected(s, s', c);
  }

  /** Whatever thread moves, the invariant stays. */
  lemma StepKeepsInvariant(s: Server, op: Op)
    requires Invariant(s) && Enabled(s, op)
    ensures Invariant(Next(s, op))
  {
    hide Invariant;
    match op {
      case Connect => ConnectKeepsInvariant(s);
      case BroadcastNext(c) => BroadcastNextKeepsInvariant(s, c);
      case Respond(c) => RespondKeepsInvariant(s, c);
      case FollowUp(c) => FollowUpKeepsInvariant(s, c);
      case Background(event) => BroadcastKeepsInvariant(s, event);
      case Write(_) => WriterKeepsInvariant(s, op);
      case WriteFails(_) => WriterKeepsInvariant(s, op);
      case _ => ThreadKeepsInvariant(s, op);
    }
  }

  // ---------- Main results, over every interleaving ----------

  /** The state after a run; a step whose thread is not ready does not happen. */
  function Run(ops: seq<Op>): Server {
    if ops == [] then INITIAL
    else
      var s := Run(ops[..|ops| - 1]);
      if Enabled(s, ops[|ops| - 1]) then Next(s, ops[|ops| - 1]) else s
  }

  lemma {:induction false} RunKeepsInvariant(ops: seq<Op>)
    ensures Invariant(Run(ops))
  {
    hide ClientInvariant, Next, Enabled;
    if ops != [] {
      var front, last := ops[..|ops| - 1], ops[|ops| - 1];
      RunKeepsInvariant(front);
      if Enabled(Run(front), last) { StepKeepsInvariant(Run(front), last); }
    }
  }

  /**
   The responses a client's channel has taken are its requests, one each and in
   order, short of at most the one in hand; a thread ready to read owes nothing.
   */
  lemma OneResponsePerRequest(ops: seq<Op>, c: ClientId)
    requires c in Run(ops).clients
    ensures var k := Run(ops).clients[c];
      && k.stream <= k.accepted
      && k.answered <= |k.requests| <= k.answered + 1
      && Responses(k.accepted) == k.requests[..k.answered]
      && (k.phase == Serving && k.work.None? ==> Responses(k.accepted) == k.requests)
  {
    hide Run;
    RunKeepsInvariant(ops);
    assert ClientInvariant(Run(ops), c);
  }

  /** The events a request caused are taken before its response, or were missed. */
  lemma CausedEventsComeFirst(ops: seq<Op>, c: ClientId, q: nat, e: nat)
    requires c in Run(ops).clients && q < Run(ops).clients[c].answered
    requires q < |Run(ops).clients[c].caused| && e in Run(ops).clients[c].caused[q]
    ensures var k := Run(ops).clients[c];
      && q < |k.answeredAt| && q < |k.requests| && k.answeredAt[q] < |k.accepted|
      && k.accepted[k.answeredAt[q]] == Response(k.requests[q])
      && (e in k.missed || HasEvent(k.accepted[..k.answeredAt[q]], e))
  {
    ResponseSplitsStream(ops, c, q, e);
    hide Run;
    RunKeepsInvariant(ops);
    assert ClientInvariant(Run(ops), c);
  }

  /**
   In every interleaving an answer stands in its client's stream at the moment it
   was given: behind every broadcast made since the client subscribed, but for
   those it missed, and before every later one.
   */
  lemma ResponseSplitsStream(ops: seq<Op>, c: ClientId, q: nat, e: nat)
    requires c in Run(ops).clients && q < Run(ops).clients[c].answered
    ensures var k := Run(ops).clients[c];
      && q < |k.answeredAt| && q < |k.answeredWhen| && q < |k.requests| && k.answeredAt[q] < |k.accepted|
      && k.accepted[k.answeredAt[q]] == Response(k.requests[q])
      && (HasEvent(k.accepted[..k.answeredAt[q]], e) ==> e < k.answeredWhen[q])
      && (k.since <= e < k.answeredWhen[q] ==> HasEvent(k.accepted[..k.answeredAt[q]], e) || e in k.missed)
  {
    hide Run;
    RunKeepsInvariant(ops);
    assert ClientInvariant(Run(ops), c);
    var k := Run(ops).clients[c];
    assert StandsAt(k, q, |Run(ops).log|);
  }

  /** The events that follow a request up are taken behind its response, and before the next one unless missed. */
  lemma FollowUpsComeBehind(ops: seq<Op>, c: ClientId, q: nat, e: nat)
    requires c in Run(ops).clients && q < Run(ops).clients[c].answered
    requires q < |Run(ops).clients[c].followed| && e in Run(ops).clients[c].followed[q]
    ensures var k := Run(ops).clients[c];
      && q < |k.answeredAt| && k.answeredAt[q] < |k.accepted|
      && !HasEvent(k.accepted[..k.answeredAt[q]], e)
      && (q + 1 < k.answered ==>
            && q + 1 < |k.answeredAt| && k.answeredAt[q + 1] < |k.accepted|
            && (e in k.missed || HasEvent(k.accepted[..k.answeredAt[q + 1]], e)))
  {
    ResponseSplitsStream(ops, c, q, e);
    if q + 1 < Run(ops).clients[c].answered { ResponseSplitsStream(ops, c, q + 1, e); }
    hide Run;
    RunKeepsInvariant(ops);
    assert ClientInvariant(Run(ops), c);
  }

  /**
   While a client is connected or still listed, every broadcast since it
   subscribed was taken by its channel or missed, never both.
   */
  lemma EveryEventIsOffered(ops: seq<Op>, c: ClientId, i: nat)
    requires c in Run(ops).clients
    requires c in Run(ops).subscribers
      || (Run(ops).clients[c].phase != Leaving && c in Run(ops).channels && Run(ops).channels[c].open)
    requires Run(ops).clients[c].since <= i < |Run(ops).log|
    ensures HasEvent(Run(ops).clients[c].accepted, i) <==> i !in Run(ops).clients[c].missed
  {
    hide Run;
    RunKeepsInvariant(ops);
    assert ClientInvariant(Run(ops), c);
  }

  lemma HasChannel(s: Server, c: ClientId)
    requires Invariant(s) && c in s.clients
    ensures c in s.channels && |s.channels[c].queue| <= OUTBOUND_CAPACITY && c != s.next
  {
    assert ClientInvariant(s, c);
  }

  /** An event is missed only in a broadcast that finds the client's queue holding 32 messages. */
  lemma MissedOnlyWhenFull(s: Server, op: Op, c: ClientId)
    requires Invariant(s) && Enabled(s, op) && c in s.clients
    ensures c in Next(s, op).clients && c in s.channels
    ensures Next(s, op).clients[c].missed != s.clients[c].missed ==>
      && (op.Background? || op.BroadcastNext? || op.FollowUp?)
      && s.channels[c].open && |s.channels[c].queue| == 32
      && Next(s, op).clients[c].missed == s.clients[c].missed + {|s.log|}
  {
    hide OfferAll, Retained, Without, Offer, Invariant, ClientInvariant;
    HasChannel(s, c);
    BroadcastIsLocal(s, "", c);
    if op.Background? { BroadcastIsLocal(s, op.event, c); }
    if op.BroadcastNext? { BroadcastIsLocal(s, s.clients[op.c].work.value.events[0], c); }
    if op.FollowUp? { BroadcastIsLocal(s, s.clients[op.c].later[0], c); }
  }

  /** Two clients see the events they share in the same order. */
  lemma SharedOrder(ops: seq<Op>, c: ClientId, d: ClientId, i: nat, j: nat, i': nat, j': nat)
    requires c in Run(ops).clients && d in Run(ops).clients
    requires var seen, seen' := Run(ops).clients[c].stream, Run(ops).clients[d].stream;
      && i < j < |seen| && seen[i].Event? && seen[j].Event?
      && i' < |seen'| && j' < |seen'| && seen'[i'] == seen[i] && seen'[j'] == seen[j]
    ensures i' < j'
  {
    hide Run;
    RunKeepsInvariant(ops);
    assert ClientInvariant(Run(ops), c) && ClientInvariant(Run(ops), d);
    var a, b := Run(ops).clients[c], Run(ops).clients[d];
    assert a.accepted[i] == a.stream[i] && a.accepted[j] == a.stream[j];
    assert b.accepted[i'] == b.stream[i'] && b.accepted[j'] == b.stream[j'];
  }

  /** The broadcast a step makes, if it makes one. */
  function BroadcastOf(s: Server, op: Op): Option<WireEvent>
    requires Enabled(s, op)
  {
    match op
    case Background(event) => Some(event)
    case BroadcastNext(c) => Some(s.clients[c].work.value.events[0])
    case FollowUp(c) => Some(s.clients[c].later[0])
    case _ => None
  }

  /**
   A step of anyone else, however full or closed their channel is, does to a
   client exactly what the broadcast it makes does to that client, or nothing.
   */
  lemma OthersNeverMatter(s: Server, op: Op, c: ClientId)
    requires Invariant(s) && Enabled(s, op) && c in s.clients
    requires op.Connect? || op.Background? || op.c != c
    ensures var s', event := Next(s, op), BroadcastOf(s, op);
      var alone := if event.Some? then Broadcast(s, event.value) else s;
      && c in s'.clients && c in s'.channels && c in alone.clients && c in alone.channels
      && s'.clients[c] == alone.clients[c]
      && s'.channels[c] == alone.channels[c]
      && (c in s'.subscribers <==> c in alone.subscribers)
  {
    hide Hear, Retained, Offer, Without;
    assert ClientInvariant(s, c);
    if op.Unsubscribe? { WithoutMembers(s.subscribers, op.c); }
  }

  // ---------- An answer comes ----------

  /** A step of the client's own thread that works on its request. */
  predicate WorksOn(op: Op, c: ClientId) {
    (op.BroadcastNext? || op.Respond? || op.RespondFails?) && op.c == c
  }

  /** What the client's thread has left to do for the request in hand: its broadcasts, and the answer. */
  function Todo(k: Client): nat {
    match k.work
    case None => 0
    case Some(work) => |work.events| + 1
  }

  /** The step that brings the answer nearer: the thread's own, or its writer's while the queue is full. */
  function NextOwn(s: Server, c: ClientId): Op
    requires c in s.clients && c in s.channels
  {
    var k, ch := s.clients[c], s.channels[c];
    if k.work.Some? && k.work.value.events != [] then BroadcastNext(c)
    else if !ch.open then RespondFails(c)
    else if |ch.queue| < OUTBOUND_CAPACITY then Respond(c)
    else Write(c)
  }

  /** No deadlock: while a request is in hand, the client's own thread or its writer can move. */
  lemma OwnStepIsEnabled(s: Server, c: ClientId)
    requires Invariant(s) && c in s.clients && s.clients[c].work.Some?
    ensures c in s.channels && Enabled(s, NextOwn(s, c))
    ensures WorksOn(NextOwn(s, c), c) || (NextOwn(s, c) == Write(c) && |s.channels[c].queue| == OUTBOUND_CAPACITY)
  {
    assert ClientInvariant(s, c);
  }

  /**
   And progress: each step of the thread on its request takes one off what is
   left to do, and no step of anyone else adds to it.
   */
  lemma TodoShrinks(s: Server, op: Op, c: ClientId)
    requires Invariant(s) && Enabled(s, op) && c in s.clients && s.clients[c].work.Some?
    ensures c in Next(s, op).clients
    ensures Todo(Next(s, op).clients[c]) == Todo(s.clients[c]) - (if WorksOn(op, c) then 1 else 0)
    ensures Next(s, op).clients[c].requests == s.clients[c].requests
    ensures !WorksOn(op, c) ==>
      && Next(s, op).clients[c].work == s.clients[c].work
      && Next(s, op).clients[c].answered == s.clients[c].answered
  {
    hide OfferAll, Retained, Without, Offer, Invariant, ClientInvariant;
    HasChannel(s, c);
  }

  /** Whether the writer has to move first. */
  function Blocked(s: Server, c: ClientId): nat {
    if c in s.channels && s.channels[c].open && |s.channels[c].queue| >= OUTBOUND_CAPACITY then 1 else 0
  }

  /** The request of `before` is answered in `after`, or its connection is gone. */
  predicate IsDone(before: Client, after: Client, open: bool) {
    && after.work == None && after.requests == before.requests
    && if open then
         && before.work.Some? && after.answered == before.answered + 1 && after.accepted != []
         && after.accepted[|after.accepted| - 1] == Response(before.work.value.request)
       else after.phase == Leaving
  }

  lemma OwnStep(s: Server, c: ClientId)
    requires Invariant(s) && c in s.clients && c in s.channels && s.clients[c].work.Some? && Enabled(s, NextOwn(s, c))
    ensures var s' := Next(s, NextOwn(s, c));
      && c in s'.clients && c in s'.channels && s'.clients[c].requests == s.clients[c].requests
      && if s.clients[c].work.value.events == [] && NextOwn(s, c) != Write(c) then
           IsDone(s.clients[c], s'.clients[c], s'.channels[c].open)
         else
           && s'.clients[c].work.Some? && s'.clients[c].work.value.request == s.clients[c].work.value.request
           && s'.clients[c].answered == s.clients[c].answered
           && 2 * Todo(s'.clients[c]) + Blocked(s', c) < 2 * Todo(s.clients[c]) + Blocked(s, c)
  {
    hide OfferAll, Retained, Without, Invariant, ClientInvariant;
    HasChannel(s, c);
    if s.clients[c].work.value.events != [] { BroadcastIsLocal(s, s.clients[c].work.value.events[0], c); }
  }

  lemma RunOneMore(ops: seq<Op>, op: Op)
    requires Enabled(Run(ops), op)
    ensures Run(ops + [op]) == Next(Run(ops), op)
  {
    assert (ops + [op])[..|ops|] == ops;
  }

  /**
   From every reachable state with a request in hand, the client's own thread and
   writer reach its answer (or the end of its connection) with nobody's help, in
   at most two steps for each broadcast left and three for the answer.
   */
  lemma {:induction false} AnswerIsReachable(ops: seq<Op>, c: ClientId) returns (more: seq<Op>)
    requires c in Run(ops).clients && Run(ops).clients[c].work.Some?
    ensures |more| <= 2 * Todo(Run(ops).clients[c]) + Blocked(Run(ops), c)
    ensures forall op <- more :: WorksOn(op, c) || op == Write(c)
    ensures var s := Run(ops + more);
      c in s.clients && c in s.channels && IsDone(Run(ops).clients[c], s.clients[c], s.channels[c].open)
    decreases 2 * Todo(Run(ops).clients[c]) + Blocked(Run(ops), c)
  {
    hide Run, Next, Enabled, Invariant, Blocked;
    var s := Run(ops);
    RunKeepsInvariant(ops);
    OwnStepIsEnabled(s, c);
    var op := NextOwn(s, c);
    OwnStep(s, c);
    RunOneMore(ops, op);
    if s.clients[c].work.value.events == [] && op != Write(c) {
      more := [op];
    } else {
      var rest := AnswerIsReachable(ops + [op], c);
      more := [op] + rest;
      assert ops + [op] + rest == ops + ([op] + rest);
    }
  }

  // ---------- What was asked for is what is told ----------

  /** The requests client `c` sent, as its thread read them: what each one was to broadcast is part of it. */
  function Reads(ops: seq<Op>, c: ClientId): (r: seq<Op>)
    ensures forall i :: 0 <= i < |r| ==> r[i].ReadRequest?
  {
    if ops == [] then []
    else
      var front, last := ops[..|ops| - 1], ops[|ops| - 1];
      Reads(front, c) + (if last.ReadRequest? && last.c == c && Enabled(Run(front), last) then [last] else [])
  }

  /** The texts of some broadcasts. */
  function Texts(log: seq<WireEvent>, indices: seq<nat>): (r: seq<WireEvent>)
    requires forall i :: 0 <= i < |indices| ==> indices[i] < |log|
    ensures |r| == |indices| && forall i :: 0 <= i < |r| ==> r[i] == log[indices[i]]
  {
    seq(|indices|, i requires 0 <= i < |indices| => log[indices[i]])
  }

  /** Broadcasts in the log, one after the other. */
  ghost predicate InLog(log: seq<WireEvent>, indices: seq<nat>) {
    && (forall i :: 0 <= i < |indices| ==> indices[i] < |log|)
    && (forall i, j :: 0 <= i < j < |indices| ==> indices[i] < indices[j])
  }

  /** The broadcasts spell out these events, but for `rest`, which is still to come. */
  ghost predicate Spells(log: seq<WireEvent>, indices: seq<nat>, rest: seq<WireEvent>, events: seq<WireEvent>) {
    InLog(log, indices) && Texts(log, indices) + rest == events
  }

  lemma LongerLogSpells(log: seq<WireEvent>, event: WireEvent, indices: seq<nat>, rest: seq<WireEvent>, events: seq<WireEvent>)
    requires Spells(log, indices, rest, events)
    ensures Spells(log + [event], indices, rest, events)
  {
    assert Texts(log + [event], indices) == Texts(log, indices);
  }

  lemma OneMoreSpells(log: seq<WireEvent>, indices: seq<nat>, rest: seq<WireEvent>, events: seq<WireEvent>)
    requires Spells(log, indices, rest, events) && rest != []
    ensures Spells(log + [rest[0]], indices + [|log|], rest[1..], events)
  {
    assert Texts(log + [rest[0]], indices + [|log|]) == Texts(log, indices) + [rest[0]];
  }

  /** What the last request has still to cause, and what is still to follow it up. */
  function ToCause(k: Client): seq<WireEvent> {
    if k.work.Some? then k.work.value.events else []
  }

  function ToFollow(k: Client): seq<WireEvent> {
    if k.work.Some? then k.work.value.later else k.later
  }

  /** What one request has caused so far, with what it has still to cause, is what it was to cause. */
  ghost predicate ToldOf(k: Client, log: seq<WireEvent>, asked: seq<Op>, q: nat) {
    && q < |k.requests| && |k.requests| == |asked| == |k.caused| == |k.followed|
    && asked[q].ReadRequest? && asked[q].request == k.requests[q]
    && Spells(log, k.caused[q], if q == |asked| - 1 then ToCause(k) else [], asked[q].events)
    && Spells(log, k.followed[q], if q == |asked| - 1 then ToFollow(k) else [], asked[q].later)
  }

  ghost predicate Told(k: Client, log: seq<WireEvent>, asked: seq<Op>) {
    && |k.requests| == |asked| == |k.caused| == |k.followed|
    && (ToCause(k) != [] || ToFollow(k) != [] ==> asked != [])
    && forall q: nat :: q < |asked| ==> ToldOf(k, log, asked, q)
  }

  /** Nothing new for this client's requests, whether or not somebody broadcast. */
  lemma ToldStays(k: Client, k': Client, log: seq<WireEvent>, told: Option<WireEvent>, asked: seq<Op>)
    requires Told(k, log, asked)
    requires k'.requests == k.requests && k'.caused == k.caused && k'.followed == k.followed
    requires ToCause(k') == ToCause(k) && ToFollow(k') == ToFollow(k)
    ensures Told(k', if told.Some? then log + [told.value] else log, asked)
  {
    hide Spells, ToCause, ToFollow;
    var log' := if told.Some? then log + [told.value] else log;
    forall q: nat | q < |asked| ensures ToldOf(k', log', asked, q) {
      assert ToldOf(k, log, asked, q);
      if told.Some? {
        LongerLogSpells(log, told.value, k.caused[q], if q == |asked| - 1 then ToCause(k) else [], asked[q].events);
        LongerLogSpells(log, told.value, k.followed[q], if q == |asked| - 1 then ToFollow(k) else [], asked[q].later);
      }
    }
  }

  lemma CausingTells(k: Client, k': Client, log: seq<WireEvent>, asked: seq<Op>)
    requires Told(k, log, asked) && ToCause(k) != []
    requires k'.requests == k.requests && k'.followed == k.followed && k'.caused == AddToLast(k.caused, |log|)
    requires ToCause(k') == ToCause(k)[1..] && ToFollow(k') == ToFollow(k)
    ensures Told(k', log + [ToCause(k)[0]], asked)
  {
    hide Spells, ToCause, ToFollow, AddToLast;
    var event, last := ToCause(k)[0], |asked| - 1;
    forall q: nat | q < |asked| ensures ToldOf(k', log + [event], asked, q) {
      assert ToldOf(k, log, asked, q);
      LongerLogSpells(log, event, k.followed[q], if q == last then ToFollow(k) else [], asked[q].later);
      if q == last { OneMoreSpells(log, k.caused[q], ToCause(k), asked[q].events); }
      else { LongerLogSpells(log, event, k.caused[q], [], asked[q].events); }
    }
  }

  lemma FollowingTells(k: Client, k': Client, log: seq<WireEvent>, asked: seq<Op>)
    requires Told(k, log, asked) && ToFollow(k) != []
    requires k'.requests == k.requests && k'.caused == k.caused && k'.followed == AddToLast(k.followed, |log|)
    requires ToCause(k') == ToCause(k) && ToFollow(k') == ToFollow(k)[1..]
    ensures Told(k', log + [ToFollow(k)[0]], asked)
  {
    hide Spells, ToCause, ToFollow, AddToLast;
    var event, last := ToFollow(k)[0], |asked| - 1;
    forall q: nat | q < |asked| ensures ToldOf(k', log + [event], asked, q) {
      assert ToldOf(k, log, asked, q);
      LongerLogSpells(log, event, k.caused[q], if q == last then ToCause(k) else [], asked[q].events);
      if q == last { OneMoreSpells(log, k.followed[q], ToFollow(k), asked[q].later); }
      else { LongerLogSpells(log, event, k.followed[q], [], asked[q].later); }
    }
  }

  lemma ReadingTells(k: Client, k': Client, log: seq<WireEvent>, asked: seq<Op>, op: Op)
    requires Told(k, log, asked) && ToCause(k) == [] && ToFollow(k) == [] && op.ReadRequest?
    requires k'.requests == k.requests + [op.request]
    requires k'.caused == k.caused + [[]] && k'.followed == k.followed + [[]]
    requires ToCause(k') == op.events && ToFollow(k') == op.later
    ensures Told(k', log, asked + [op])
  {
    hide Spells, ToCause, ToFollow;
    var asked' := asked + [op];
    NothingSpellsNothing(log, op.events);
    NothingSpellsNothing(log, op.later);
    forall q: nat | q < |asked'| ensures ToldOf(k', log, asked', q) {
      if q < |asked| { assert ToldOf(k, log, asked, q); }
    }
  }

  lemma NothingSpellsNothing(log: seq<WireEvent>, events: seq<WireEvent>)
    ensures Spells(log, [], events, events)
  {
    assert Texts(log, []) + events == events;
  }

  /** One step, whoever takes it. */
  lemma StepTells(s: Server, op: Op, c: ClientId, asked: seq<Op>)
    requires Invariant(s) && Enabled(s, op) && c in s.clients && Told(s.clients[c], s.log, asked)
    ensures c in Next(s, op).clients
    ensures Told(Next(s, op).clients[c], Next(s, op).log, asked + (if op.ReadRequest? && op.c == c then [op] else []))
  {
    hide OfferAll, Retained, Without, Offer, Invariant, ClientInvariant, AddToLast, ToldOf;
    HasChannel(s, c);
    var k, s' := s.clients[c], Next(s, op);
    assert asked + [] == asked;
    assert s'.log == match BroadcastOf(s, op) case None => s.log case Some(event) => s.log + [event];
    if op.BroadcastNext? && op.c == c { CausingTells(k, s'.clients[c], s.log, asked); }
    else if op.FollowUp? && op.c == c { FollowingTells(k, s'.clients[c], s.log, asked); }
    else if op.ReadRequest? && op.c == c { ReadingTells(k, s'.clients[c], s.log, asked, op); }
    else { ToldStays(k, s'.clients[c], s.log, BroadcastOf(s, op), asked); }
  }

  lemma {:induction false} RunTells(ops: seq<Op>, c: ClientId)
    ensures c in Run(ops).clients ==> Told(Run(ops).clients[c], Run(ops).log, Reads(ops, c))
    ensures c !in Run(ops).clients ==> Reads(ops, c) == []
  {
    hide Next, Told;
    if ops != [] {
      var front, last := ops[..|ops| - 1], ops[|ops| - 1];
      RunTells(front, c);
      RunKeepsInvariant(front);
      var s := Run(front);
      if !Enabled(s, last) {
        assert Reads(front, c) + [] == Reads(front, c);
      } else if c in s.clients {
        StepTells(s, last, c, Reads(front, c));
      } else {
        NewClientIsTold(s, last, c);
      }
    }
  }

  lemma NewClientIsTold(s: Server, op: Op, c: ClientId)
    requires Enabled(s, op) && c !in s.clients
    ensures !(op.ReadRequest? && op.c == c)
    ensures c in Next(s, op).clients ==> Told(Next(s, op).clients[c], Next(s, op).log, [])
  {
  }

  /**
   In every interleaving, the requests of a client are those its thread read, and
   each is carried out as it asks. Once answered it has caused exactly its events,
   in their order, all broadcast before the answer; what followed it up is a
   beginning of what was to follow, and all of it once the next request is read.
   */
  lemma RequestsAreCarriedOut(ops: seq<Op>, c: ClientId, q: nat)
    requires c in Run(ops).clients && q < |Run(ops).clients[c].requests|
    ensures var s, k, asked := Run(ops), Run(ops).clients[c], Reads(ops, c);
      && |asked| == |k.requests| == |k.caused| == |k.followed| && asked[q].request == k.requests[q]
      && (q < k.answered ==>
            && Spells(s.log, k.caused[q], [], asked[q].events)
            && q < |k.answeredWhen| && forall e <- k.caused[q] :: e < k.answeredWhen[q])
      && (exists rest :: Spells(s.log, k.followed[q], rest, asked[q].later))
      && (q + 1 < |k.requests| ==> Spells(s.log, k.followed[q], [], asked[q].later))
  {
    hide Run, Spells;
    RunTells(ops, c);
    RunKeepsInvariant(ops);
    var s, asked := Run(ops), Reads(ops, c);
    assert ClientInvariant(s, c) && ToldOf(s.clients[c], s.log, asked, q);
  }

  // ---------- The life of a client ----------

  /** The phase that the steps taken so far put a client in. */
  function PhaseAfter(ops: seq<Op>, c: ClientId): Option<Phase> {
    if ops == [] then None
    else
      var front, last := ops[..|ops| - 1], ops[|ops| - 1];
      if !Enabled(Run(front), last) then PhaseAfter(front, c)
      else if last == Connect && c == Run(front).next then Some(Greeting)
      else if last == HelloOk(c) then Some(Serving)
      else if last == HelloFails(c) || last == HangUp(c) || last == RespondFails(c) then Some(Leaving)
      else PhaseAfter(front, c)
  }

  lemma {:induction false} PhaseIsAfter(ops: seq<Op>, c: ClientId)
    ensures PhaseAfter(ops, c) == PhaseOf(Run(ops), c)
  {
    hide Invariant, Next, Enabled, PhaseOf;
    if ops == [] {
      NoPhaseYet(c);
    } else {
      PhaseIsAfter(ops[..|ops| - 1], c);
      RunKeepsInvariant(ops[..|ops| - 1]);
      var s := Run(ops[..|ops| - 1]);
      if Enabled(s, ops[|ops| - 1]) { PhaseStep(s, ops[|ops| - 1], c); }
    }
  }

  function PhaseOf(s: Server, c: ClientId): Option<Phase> {
    if c in s.clients then Some(s.clients[c].phase) else None
  }

  lemma NoPhaseYet(c: ClientId)
    ensures PhaseOf(INITIAL, c) == None
  {
  }

  lemma PhaseStep(s: Server, op: Op, c: ClientId)
    requires Invariant(s) && Enabled(s, op)
    ensures PhaseOf(Next(s, op), c) ==
      if op == Connect && c == s.next then Some(Greeting)
      else if op == HelloOk(c) then Some(Serving)
      else if op == HelloFails(c) || op == HangUp(c) || op == RespondFails(c) then Some(Leaving)
      else PhaseOf(s, c)
  {
    hide Invariant, OfferAll, Retained, Without, Offer, AddToLast;
    FreshIsUnknown(s);
  }

  lemma FreshIsUnknown(s: Server)
    requires Invariant(s)
    ensures s.next !in s.clients
  {
    forall c <- s.clients ensures c < s.next { assert ClientInvariant(s, c); }
  }

  /** No thread is ever stuck: at each point of its life the next step is open to it, and so is the writer's. */
  lemma ThreadsAreNeverStuck(ops: seq<Op>, c: ClientId)
    requires c in Run(ops).clients
    ensures var s := Run(ops);
      c in s.channels && var k, ch := s.clients[c], s.channels[c];
      && (k.phase == Greeting ==> Enabled(s, HelloOk(c)) && Enabled(s, HelloFails(c)))
      && (k.phase == Serving && k.work == None && k.later == [] ==>
            Enabled(s, HangUp(c)) && forall id, events, later :: Enabled(s, ReadRequest(c, id, events, later)))
      && (k.work == None && k.later != [] ==> Enabled(s, FollowUp(c)))
      && (k.phase == Leaving && k.later == [] ==> Enabled(s, Unsubscribe(c)))
      && (ch.open && ch.queue != [] ==> Enabled(s, Write(c)) && Enabled(s, WriteFails(c)))
  {
    hide Run;
    RunKeepsInvariant(ops);
    HasChannel(Run(ops), c);
  }

  /**
   And none acts out of turn: a request is read, and the thread leaves, only when
   nothing is in hand or still to follow; an answer is tried only when all its
   events are told, and given only into an open channel with room.
   */
  lemma StepsAreInTurn(s: Server, op: Op)
    requires Enabled(s, op) && !op.Connect? && !op.Background?
    ensures op.c in s.clients && op.c in s.channels
    ensures var k, ch := s.clients[op.c], s.channels[op.c];
      && (op.HelloOk? || op.HelloFails? ==> k.phase == Greeting)
      && (op.ReadRequest? || op.HangUp? ==> k.phase == Serving && k.work == None && k.later == [])
      && (op.BroadcastNext? || op.Respond? || op.RespondFails? ==> k.phase == Serving && k.work.Some?)
      && (op.Respond? || op.RespondFails? ==> k.work.value.events == [])
      && (op.Respond? ==> ch.open && |ch.queue| < 32)
      && (op.RespondFails? ==> !ch.open)
      && (op.FollowUp? ==> k.work == None && k.later != [])
      && (op.Unsubscribe? ==> k.phase == Leaving && k.later == [])
      && (op.Write? || op.WriteFails? ==> ch.open && ch.queue != [])
  {
  }

  /** An unsubscribed client is off the list, and a failed write closes its channel, in the same step. */
  lemma PartingIsAtOnce(s: Server, c: ClientId)
    ensures Enabled(s, Unsubscribe(c)) ==> c !in Next(s, Unsubscribe(c)).subscribers
    ensures Enabled(s, WriteFails(c)) ==>
      Next(s, WriteFails(c)).channels[c] == Channel([], false) && Next(s, WriteFails(c)).clients == s.clients
  {
    WithoutMembers(s.subscribers, c);
  }

  /** And for good: a closed channel brings nothing to the socket any more, and one off the list takes no event. */
  lemma PartingIsForGood(s: Server, op: Op, c: ClientId)
    requires Invariant(s) && Enabled(s, op) && c in s.clients && c in s.channels
    ensures var s' := Next(s, op);
      && c in s'.clients && c in s'.channels
      && (!s.channels[c].open ==> !s'.channels[c].open && s'.clients[c].stream == s.clients[c].stream)
      && (s.clients[c].phase == Leaving && c !in s.subscribers ==>
            s'.clients[c].phase == Leaving && c !in s'.subscribers && s'.clients[c].accepted == s.clients[c].accepted)
  {
    hide Invariant, Without, Retained;
    HasChannel(s, c);
    RetainedMembers(s.subscribers, s.channels);
    if op.Unsubscribe? { WithoutMembers(s.subscribers, op.c); }
  }

  /** What the writer takes to the socket is the oldest message of its client's queue. */
  lemma WriterTakesOldest(s: Server, c: ClientId)
    requires Enabled(s, Write(c))
    ensures var s' := Next(s, Write(c));
      && c in s'.clients && c in s'.channels
      && s'.clients[c].stream == s.clients[c].stream + [s.channels[c].queue[0]]
      && [s.channels[c].queue[0]] + s'.channels[c].queue == s.channels[c].queue
  {
  }

  /** Leaving the list moves nobody else: what stood before and behind stays there. */
  lemma {:induction false} WithoutExactly(before: seq<ClientId>, id: ClientId, behind: seq<ClientId>)
    requires id !in before && id !in behind
    ensures Without(before + [id] + behind, id) == before + behind
    decreases |behind|
  {
    var all := before + [id] + behind;
    if behind == [] {
      assert all[..|all| - 1] == before;
      WithoutAbsent(before, id);
    } else {
      var k := |behind| - 1;
      WithoutExactly(before, id, behind[..k]);
      assert all[..|all| - 1] == before + [id] + behind[..k];
      assert behind == behind[..k] + [behind[k]];
    }
  }

  lemma {:induction false} WithoutAbsent(ids: seq<ClientId>, id: ClientId)
    requires id !in ids
    ensures Without(ids, id) == ids
  {
    if ids != [] {
      WithoutAbsent(ids[..|ids| - 1], id);
      assert ids == ids[..|ids| - 1] + [ids[|ids| - 1]];
    }
  }
}
