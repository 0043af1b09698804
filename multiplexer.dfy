// MultiplexingManager: hands out channel and remote-call IDs, keeps one
// receive queue per ID while its scope is open, and routes every inbound
// message to at most one of those queues. The queue type is a parameter,
// as in the source; queues are compared by identity.

module Multiplexer {
  import opened JsonValue
  import opened SdkErrors

  /** How a received message is logged when no queue takes it. */
  datatype LogLevel = Quiet | Warn | LoggedError

  /** map_rx_message's answer: the queue to deliver to, or nothing. */
  datatype Routing<Q> = Deliver(queue: Q) | Drop(logged: LogLevel)

  /** What `ids.get(key)` finds for a decoded key: lists and dicts raise TypeError. */
  function Find<Q>(ids: map<int, Q>, key: Json): (r: Result<Option<Q>>)
    ensures r.Err? <==> !Hashable(key)
    ensures r.Ok? && r.value.Some? <==> Hashable(key) && IntKey(key).Some? && IntKey(key).value in ids
    ensures r.Ok? && r.value.Some? ==> r.value.value == ids[IntKey(key).value]
  {
    if !Hashable(key) then Err(Builtin(TypeError))
    else match IntKey(key)
      case Some(k) => if k in ids then Ok(Some(ids[k])) else Ok(None)
      case None => Ok(None)
  }

  class Multiplexer<Q(==)> {
    var openChannels: map<int, Q>
    var lastChannelId: int
    var pendingCalls: map<int, Q>
    var lastCallId: int

    /** Every registered ID was handed out already, so a new ID is never in use. */
    ghost predicate Valid()
      reads this
    {
      && lastChannelId >= 0 && lastCallId >= 0
      && (forall k :: k in openChannels ==> 1 <= k <= lastChannelId)
      && (forall k :: k in pendingCalls ==> 1 <= k <= lastCallId)
    }

    constructor ()
      ensures Valid()
      ensures openChannels == map[] && pendingCalls == map[]
      ensures lastChannelId == 0 && lastCallId == 0
    {
      openChannels := map[];
      lastChannelId := 0;
      pendingCalls := map[];
      lastCallId := 0;
    }

    /** all_queues: the queues of open channels, then those of pending calls. */
    function AllQueues(): (qs: set<Q>)
      reads this
      ensures forall k :: k in openChannels ==> openChannels[k] in qs
      ensures forall k :: k in pendingCalls ==> pendingCalls[k] in qs
      ensures forall q :: q in qs ==> q in openChannels.Values || q in pendingCalls.Values
    {
      openChannels.Values + pendingCalls.Values
    }

    /** _get_next_channel_id */
    method NextChannelId() returns (id: int)
      modifies this
      ensures id == old(lastChannelId) + 1 && lastChannelId == id
      ensures openChannels == old(openChannels) && pendingCalls == old(pendingCalls)
      ensures lastCallId == old(lastCallId)
    {
      id := lastChannelId + 1;
      lastChannelId := id;
    }

    /** Entering assign_channel_id's scope: a new ID, registered to `rxQueue`. */
    method AssignChannelId(rxQueue: Q) returns (id: int)
      requires Valid()
      modifies this
      ensures Valid()
      ensures id == old(lastChannelId) + 1 && lastChannelId == id
      ensures id !in old(openChannels)
      ensures openChannels == old(openChannels)[id := rxQueue]
      ensures pendingCalls == old(pendingCalls) && lastCallId == old(lastCallId)
    {
      id := NextChannelId();
      openChannels := openChannels[id := rxQueue];
    }

    /**
     * Leaving assign_channel_id's scope, normally or by an exception: the
     * ID's entry is removed, and the assertion fails unless it still held
     * `rxQueue`.
     */
    method ReleaseChannelId(id: int, rxQueue: Q) returns (r: Result<()>)
      requires Valid()
      modifies this
      ensures Valid()
      ensures openChannels == old(openChannels) - {id}
      ensures r.Ok? <==> id in old(openChannels) && old(openChannels)[id] == rxQueue
      ensures r.Err? ==> r.error == Builtin(AssertionError)
      ensures pendingCalls == old(pendingCalls)
      ensures lastChannelId == old(lastChannelId) && lastCallId == old(lastCallId)
    {
      var dropped: Option<Q> := if id in openChannels then Some(openChannels[id]) else None;
      openChannels := openChannels - {id};
      if dropped == Some(rxQueue) {
        r := Ok(());
      } else {
        r := Err(Builtin(AssertionError));
      }
    }

    /** _get_next_call_id */
    method NextCallId() returns (id: int)
      modifies this
      ensures id == old(lastCallId) + 1 && lastCallId == id
      ensures openChannels == old(openChannels) && pendingCalls == old(pendingCalls)
      ensures lastChannelId == old(lastChannelId)
    {
      id := lastCallId + 1;
      lastCallId := id;
    }

    /** Entering assign_call_id's scope. */
    method AssignCallId(rxQueue: Q) returns (id: int)
      requires Valid()
      modifies this
      ensures Valid()
      ensures id == old(lastCallId) + 1 && lastCallId == id
      ensures id !in old(pendingCalls)
      ensures pendingCalls == old(pendingCalls)[id := rxQueue]
      ensures openChannels == old(openChannels) && lastChannelId == old(lastChannelId)
    {
      id := NextCallId();
      pendingCalls := pendingCalls[id := rxQueue];
    }

    /** Leaving assign_call_id's scope. */
    method ReleaseCallId(id: int, rxQueue: Q) returns (r: Result<()>)
      requires Valid()
      modifies this
      ensures Valid()
      ensures pendingCalls == old(pendingCalls) - {id}
      ensures r.Ok? <==> id in old(pendingCalls) && old(pendingCalls)[id] == rxQueue
      ensures r.Err? ==> r.error == Builtin(AssertionError)
      ensures openChannels == old(openChannels)
      ensures lastChannelId == old(lastChannelId) && lastCallId == old(lastCallId)
    {
      var dropped: Option<Q> := if id in pendingCalls then Some(pendingCalls[id]) else None;
      pendingCalls := pendingCalls - {id};
      if dropped == Some(rxQueue) {
        r := Ok(());
      } else {
        r := Err(Builtin(AssertionError));
      }
    }

    /** map_rx_message: the queue a received message belongs to. */
    function MapRxMessage(message: Json): (r: Result<Routing<Q>>)
      reads this
      ensures r.Ok? && r.value.Deliver? ==> r.value.queue in AllQueues()
      ensures r.Err? ==> r.error in {ClientError, Builtin(TypeError)}
    {
      RouteOutcomes(message, openChannels, lastChannelId, pendingCalls);
      Route(message, openChannels, lastChannelId, pendingCalls)
    }
  }

  /**
   * map_rx_message on the manager's state. A "channelId" entry decides
   * first, then a "callId" entry, then the communication-warning shape;
   * any other message is rejected.
   */
  function Route<Q>(message: Json, openChannels: map<int, Q>, lastChannelId: int, pendingCalls: map<int, Q>)
    : (r: Result<Routing<Q>>)
  {
    match Get(message, "channelId")
    case Some(channelId) =>
      (match Find(openChannels, channelId)
       case Err(e) => Err(e)
       case Ok(Some(q)) => Ok(Deliver(q))
       case Ok(None) =>
         // `channel_id <= self._last_channel_id`: only numbers compare with an int
         match NumberValue(channelId)
         case None => Err(Builtin(TypeError))
         case Some(n) =>
           if n <= lastChannelId as real && TypeIs(message, "channelClose") then Ok(Drop(Quiet))
           else Ok(Drop(Warn)))
    case None =>
      match Get(message, "callId")
      case Some(callId) =>
        (match Find(pendingCalls, callId)
         case Err(e) => Err(e)
         case Ok(Some(q)) => Ok(Deliver(q))
         case Ok(None) => Ok(Drop(Warn)))
      case None =>
        if TypeIs(message, "communicationWarning") && Get(message, "warning").Some? then Ok(Drop(LoggedError))
        else Err(ClientError)
  }

  /** A message naming a registered channel reaches that channel's queue, and no other. */
  lemma RouteToOpenChannel<Q>(message: Json, openChannels: map<int, Q>, lastChannelId: int,
                              pendingCalls: map<int, Q>, id: int)
    requires Get(message, "channelId") == Some(JNum(id as real))
    ensures id in openChannels ==> Route(message, openChannels, lastChannelId, pendingCalls) == Ok(Deliver(openChannels[id]))
    ensures id !in openChannels ==> Route(message, openChannels, lastChannelId, pendingCalls).Ok?
    ensures id !in openChannels ==> Route(message, openChannels, lastChannelId, pendingCalls).value.Drop?
  {
    var key := JNum(id as real);
    assert IsWhole(id as real);
    assert IntKey(key) == Some(id);
  }

  /** A reply naming a pending call reaches that call's queue. */
  lemma RouteToPendingCall<Q>(message: Json, openChannels: map<int, Q>, lastChannelId: int,
                              pendingCalls: map<int, Q>, id: int)
    requires Get(message, "channelId").None?
    requires Get(message, "callId") == Some(JNum(id as real))
    ensures id in pendingCalls ==> Route(message, openChannels, lastChannelId, pendingCalls) == Ok(Deliver(pendingCalls[id]))
    ensures id !in pendingCalls ==> Route(message, openChannels, lastChannelId, pendingCalls) == Ok(Drop(Warn))
  {
    assert IntKey(JNum(id as real)) == Some(id);
  }

  /**
   * An unregistered channel ID is dropped quietly exactly when it was
   * handed out before and the message closes the channel; otherwise the
   * drop is logged as a warning.
   */
  lemma RouteClosedChannel<Q>(message: Json, openChannels: map<int, Q>, lastChannelId: int,
                              pendingCalls: map<int, Q>, id: int)
    requires Get(message, "channelId") == Some(JNum(id as real))
    requires id !in openChannels
    ensures Route(message, openChannels, lastChannelId, pendingCalls) == Ok(Drop(Quiet))
      <==> id <= lastChannelId && TypeIs(message, "channelClose")
    ensures Route(message, openChannels, lastChannelId, pendingCalls) == Ok(Drop(Warn))
      <==> !(id <= lastChannelId && TypeIs(message, "channelClose"))
  {
    assert IntKey(JNum(id as real)) == Some(id);
  }

  /**
   * Whatever the message, a route either delivers to a registered queue,
   * drops the message, or raises: a client error exactly when the message
   * has none of the recognised shapes, and TypeError only for an ID no
   * dict could hold.
   */
  lemma RouteOutcomes<Q>(message: Json, openChannels: map<int, Q>, lastChannelId: int, pendingCalls: map<int, Q>)
    ensures var r := Route(message, openChannels, lastChannelId, pendingCalls);
      && (r.Ok? && r.value.Deliver? ==> r.value.queue in openChannels.Values || r.value.queue in pendingCalls.Values)
      && (r == Err(ClientError) <==>
            Get(message, "channelId").None? && Get(message, "callId").None?
            && !(TypeIs(message, "communicationWarning") && Get(message, "warning").Some?))
      && (r == Ok(Drop(LoggedError)) ==> TypeIs(message, "communicationWarning"))
      && (r.Err? ==> r.error in {ClientError, Builtin(TypeError)})
  {
    var r := Route(message, openChannels, lastChannelId, pendingCalls);
    if r.Ok? && r.value.Deliver? {
      match Get(message, "channelId")
      case Some(c) =>
        assert openChannels[IntKey(c).value] == r.value.queue;
      case None =>
        var c := Get(message, "callId").value;
        assert pendingCalls[IntKey(c).value] == r.value.queue;
    }
  }
}
