// The synchronous client: a channel drains its receive queue until the
// server closes it, the websocket routes each inbound message to exactly
// one queue and wakes every reader on disconnect, a prediction stream moves
// through start/close/cancel, and the client keeps one session per API
// namespace. The websocket transport itself is not part of this model: the
// messages it would deliver are already in the queues, and the messages it
// would send are recorded in `sent`.

module SyncApi {
  import opened JsonValue
  import opened SdkErrors
  import opened Multiplexer
  import opened Envelopes
  import opened Endpoints
  import Prediction

  /** queue.Queue: received messages, and `None` telling a waiting reader the client is going away. */
  class RxQueue {
    var items: seq<Option<Json>>

    constructor ()
      ensures items == []
    {
      items := [];
    }

    /** put */
    method Put(item: Option<Json>)
      modifies this
      ensures items == old(items) + [item]
    {
      items := items + [item];
    }

    /** get, on a queue holding something (on an empty queue the reader blocks). */
    method Take() returns (item: Option<Json>)
      requires items != []
      modifies this
      ensures [item] + items == old(items)
    {
      item := items[0];
      items := items[1..];
    }
  }

  /** handle_rx_message on a queue item: the termination `None` matches no message shape. */
  function HandleItem(h: ChannelHandler, item: Option<Json>): Result<Option<Entries>>
  {
    match item
    case None => Err(ClientError)
    case Some(message) => h.HandleRxMessage(message)
  }

  /**
   * What rx_stream produced from a queue: the contents it yielded, how many
   * items it took, whether the server closed the channel, and the error
   * that ended it, if any. Neither closed nor failed means the reader is
   * left waiting on an empty queue.
   */
  datatype Drained = Drained(contents: seq<Entries>, consumed: nat, finished: bool, raised: Option<Error>)

  /** rx_stream over the queued items. */
  function RxDrain(h: ChannelHandler, queued: seq<Option<Json>>): (d: Drained)
    ensures d.consumed <= |queued|
    ensures d.consumed == |d.contents| + (if d.finished || d.raised.Some? then 1 else 0)
    ensures !(d.finished && d.raised.Some?)
    ensures !d.finished && d.raised.None? ==> d.consumed == |queued|
  {
    if queued == [] then Drained([], 0, false, None)
    else
      match HandleItem(h, queued[0])
      case Err(e) => Drained([], 1, false, Some(e))
      case Ok(None) => Drained([], 1, true, None)
      case Ok(Some(c)) =>
        var rest := RxDrain(h, queued[1..]);
        Drained([c] + rest.contents, rest.consumed + 1, rest.finished, rest.raised)
  }

  /**
   * rx_stream yields the contents of the queued messages in arrival order,
   * and stops at the first item that is not a `channelSend`: the server's
   * close (which finishes the channel) or an error.
   */
  lemma {:induction false} RxDrainInOrder(h: ChannelHandler, queued: seq<Option<Json>>)
    ensures var d := RxDrain(h, queued);
      && (forall k :: 0 <= k < |d.contents| ==> HandleItem(h, queued[k]) == Ok(Some(d.contents[k])))
      && (d.finished ==> HandleItem(h, queued[d.consumed - 1]) == Ok(None))
      && (d.raised.Some? ==> HandleItem(h, queued[d.consumed - 1]) == Err(d.raised.value))
    decreases |queued|
  {
    if queued != [] && HandleItem(h, queued[0]).Ok? && HandleItem(h, queued[0]).value.Some? {
      RxDrainInOrder(h, queued[1..]);
      var d := RxDrain(h, queued);
      var rest := RxDrain(h, queued[1..]);
      forall k | 0 < k < |d.contents|
        ensures HandleItem(h, queued[k]) == Ok(Some(d.contents[k]))
      {
        assert d.contents[k] == rest.contents[k - 1];
        assert queued[k] == queued[1..][k - 1];
      }
    }
  }

  /** The termination `None` wakes a reader with a client error, not a clean close. */
  lemma TerminationIsAnError(h: ChannelHandler, queued: seq<Option<Json>>)
    requires queued != [] && queued[0].None?
    ensures RxDrain(h, queued) == Drained([], 1, false, Some(ClientError))
  {
  }

  /** `contents` already yielded from `n` items, followed by the drain of the rest. */
  function After(contents: seq<Entries>, n: nat, rest: Drained): Drained
  {
    Drained(contents + rest.contents, n + rest.consumed, rest.finished, rest.raised)
  }

  /** rx_stream finds the queue empty: the drain of the whole queue is what was read so far. */
  lemma RxDrainEnd(h: ChannelHandler, queued: seq<Option<Json>>, contents: seq<Entries>)
    requires RxDrain(h, queued) == After(contents, |queued|, RxDrain(h, queued[|queued|..]))
    ensures RxDrain(h, queued) == Drained(contents, |queued|, false, None)
  {
    assert queued[|queued|..] == [];
  }

  /** One read of rx_stream's loop: how the item at position n settles the drain of the whole queue. */
  lemma RxDrainStep(h: ChannelHandler, queued: seq<Option<Json>>, contents: seq<Entries>, n: nat,
                    handled: Result<Option<Entries>>)
    requires n < |queued| && handled == HandleItem(h, queued[n])
    requires RxDrain(h, queued) == After(contents, n, RxDrain(h, queued[n..]))
    ensures handled.Err? ==> RxDrain(h, queued) == Drained(contents, n + 1, false, Some(handled.error))
    ensures handled == Ok(None) ==> RxDrain(h, queued) == Drained(contents, n + 1, true, None)
    ensures handled.Ok? && handled.value.Some? ==>
      RxDrain(h, queued) == After(contents + [handled.value.value], n + 1, RxDrain(h, queued[n + 1..]))
  {
    var rest := queued[n..];
    assert rest[0] == queued[n] && rest[1..] == queued[n + 1..];
    RxDrainHead(h, rest, handled);
    if handled.Ok? && handled.value.Some? {
      var c, later := handled.value.value, RxDrain(h, queued[n + 1..]);
      assert RxDrain(h, rest) == After([c], 1, later);
      assert contents + ([c] + later.contents) == (contents + [c]) + later.contents;
    }
  }

  /** rx_stream's first read settles the drain: stop on an error or the close, otherwise go on. */
  lemma RxDrainHead(h: ChannelHandler, queued: seq<Option<Json>>, handled: Result<Option<Entries>>)
    requires queued != [] && handled == HandleItem(h, queued[0])
    ensures handled.Err? ==> RxDrain(h, queued) == Drained([], 1, false, Some(handled.error))
    ensures handled == Ok(None) ==> RxDrain(h, queued) == Drained([], 1, true, None)
    ensures handled.Ok? && handled.value.Some? ==>
      RxDrain(h, queued) == After([handled.value.value], 1, RxDrain(h, queued[1..]))
  {
  }

  /** The outcome of wait_for_result on a loading channel: `outcome` is None while it still waits. */
  datatype Waited = Waited(state: LoadingState, consumed: nat, channelClosed: bool,
                           outcome: Option<Result<ModelLoadResult>>)

  /**
   * wait_for_result with a model-loading endpoint: each received message is
   * handled by the endpoint, and reading stops as soon as the endpoint is
   * finished or the server closes the channel; then the endpoint's result
   * is returned.
   */
  function WaitLoading(h: ChannelHandler, hasCallback: bool, s: LoadingState, queued: seq<Option<Json>>): (w: Waited)
    ensures w.consumed <= |queued|
    ensures w.outcome.None? ==> w.consumed == |queued|
    decreases |queued|
  {
    if queued == [] then Waited(s, 0, false, None)
    else
      match HandleItem(h, queued[0])
      case Err(e) => Waited(s, 1, false, Some(Err(e)))
      case Ok(None) => Waited(s, 1, true, Some(ReadResult(s.isFinished, s.result)))
      case Ok(Some(c)) =>
        var step := LoadingNext(hasCallback, s, Some(c));
        match step.outcome
        case Err(e) => Waited(step.state, 1, false, Some(Err(e)))
        case Ok(_) =>
          if step.state.isFinished then Waited(step.state, 1, false, Some(ReadResult(true, step.state.result)))
          else
            var rest := WaitLoading(h, hasCallback, step.state, queued[1..]);
            rest.(consumed := rest.consumed + 1)
  }

  /**
   * A wait that returns a result returns the endpoint's own result, and a
   * channel the server closes before the endpoint finished raises.
   */
  lemma {:induction false} WaitLoadingOutcome(h: ChannelHandler, hasCallback: bool, s: LoadingState,
                                              queued: seq<Option<Json>>)
    requires !s.isFinished
    ensures var w := WaitLoading(h, hasCallback, s, queued);
      && (w.outcome.Some? && w.outcome.value.Ok? ==> w.state.isFinished && w.state.result == Some(w.outcome.value.value))
      && (w.channelClosed ==> w.outcome == Some(Err(RuntimeError)))
      && (w.outcome.None? ==> !w.state.isFinished)
    decreases |queued|
  {
    if queued != [] && HandleItem(h, queued[0]).Ok? && HandleItem(h, queued[0]).value.Some? {
      var step := LoadingNext(hasCallback, s, HandleItem(h, queued[0]).value);
      if step.outcome.Ok? && !step.state.isFinished {
        WaitLoadingOutcome(h, hasCallback, step.state, queued[1..]);
      }
    }
  }

  /** A channel over the multiplexed websocket. */
  class SyncChannel {
    const handler: ChannelHandler
    const rxQueue: RxQueue
    var isFinished: bool
    /** The messages this channel handed to the websocket's send_json. */
    var sent: seq<Json>

    constructor (handler: ChannelHandler, rxQueue: RxQueue)
      ensures this.handler == handler && this.rxQueue == rxQueue
      ensures !isFinished && sent == []
    {
      this.handler := handler;
      this.rxQueue := rxQueue;
      isFinished := false;
      sent := [];
    }

    /** cancel: the cancel message goes out only while the channel is open. */
    method Cancel()
      modifies this
      ensures isFinished == old(isFinished)
      ensures sent == if old(isFinished) then old(sent) else old(sent) + [handler.CancelMessage()]
    {
      if isFinished {
        return;
      }
      sent := sent + [handler.CancelMessage()];
    }

    /**
     * rx_stream, consumed to the end: the handled contents in order, then
     * the error that ended it, if any; the channel is finished exactly when
     * the server closed it.
     */
    method RxStream() returns (contents: seq<Entries>, raised: Option<Error>)
      modifies this, rxQueue
      ensures sent == old(sent)
      ensures old(isFinished) ==> contents == [] && raised.None? && isFinished && rxQueue.items == old(rxQueue.items)
      ensures !old(isFinished) ==>
        var d := RxDrain(handler, old(rxQueue.items));
        && contents == d.contents && raised == d.raised && isFinished == d.finished
        && rxQueue.items == old(rxQueue.items)[d.consumed..]
    {
      contents, raised := [], None;
      if isFinished {
        return;
      }
      ghost var queued := rxQueue.items;
      ghost var n := 0;
      while true
        invariant n <= |queued| && rxQueue.items == queued[n..]
        invariant !isFinished && sent == old(sent) && raised.None?
        invariant RxDrain(handler, queued) == After(contents, n, RxDrain(handler, queued[n..]))
        decreases |rxQueue.items|
      {
        if rxQueue.items == [] {
          // the reader would block here
          RxDrainEnd(handler, queued, contents);
          return;
        }
        var item := rxQueue.Take();
        assert item == queued[n] && rxQueue.items == queued[n + 1..];
        var handled := HandleItem(handler, item);
        RxDrainStep(handler, queued, contents, n, handled);
        if handled.Err? {
          raised := Some(handled.error);
          return;
        }
        if handled.value.None? {
          isFinished := true;
          return;
        }
        contents := contents + [handled.value.value];
        n := n + 1;
      }
    }

    /**
     * wait_for_result with a model-loading endpoint: `None` while it would
     * still be waiting on an empty queue, otherwise what it returns or
     * raises.
     */
    method WaitForLoadResult(endpoint: LoadingEndpoint) returns (r: Option<Result<ModelLoadResult>>)
      modifies this, rxQueue, endpoint
      ensures sent == old(sent)
      ensures old(isFinished) ==>
        r == Some(old(endpoint.Result())) && isFinished && rxQueue.items == old(rxQueue.items)
        && endpoint.State() == old(endpoint.State())
      ensures !old(isFinished) ==>
        var w := WaitLoading(handler, endpoint.hasProgressCallback, old(endpoint.State()), old(rxQueue.items));
        && r == w.outcome && endpoint.State() == w.state && isFinished == w.channelClosed
        && rxQueue.items == old(rxQueue.items)[w.consumed..]
    {
      if isFinished {
        return Some(endpoint.Result());
      }
      ghost var queued := rxQueue.items;
      ghost var s0 := endpoint.State();
      ghost var n := 0;
      while true
        invariant n <= |queued| && rxQueue.items == queued[n..]
        invariant !isFinished && sent == old(sent)
        invariant var w := WaitLoading(handler, endpoint.hasProgressCallback, endpoint.State(), queued[n..]);
          WaitLoading(handler, endpoint.hasProgressCallback, s0, queued) == w.(consumed := w.consumed + n)
        decreases |rxQueue.items|
      {
        if rxQueue.items == [] {
          return None;
        }
        var item := rxQueue.Take();
        assert queued[n..][0] == item && queued[n..][1..] == queued[n + 1..];
        var handled := HandleItem(handler, item);
        if handled.Err? {
          return Some(Err(handled.error));
        }
        if handled.value.None? {
          isFinished := true;
          return Some(endpoint.Result());
        }
        var events := endpoint.IterMessageEvents(handled.value);
        if events.Err? {
          return Some(Err(events.error));
        }
        if endpoint.isFinished {
          return Some(endpoint.Result());
        }
        n := n + 1;
      }
    }
  }

  /** The websocket's receive side: the multiplexer and whether a connection is held. */
  class SyncWebsocket {
    const mux: Multiplexer<RxQueue>
    var connected: bool

    /**
     * Every channel and call is given a queue of its own (open_channel and
     * remote_call create a new one each time), so no queue is registered
     * twice.
     */
    ghost predicate Valid()
      reads this, mux
    {
      && mux.Valid()
      && (forall a, b :: a in mux.openChannels && b in mux.openChannels && a != b ==>
            mux.openChannels[a] != mux.openChannels[b])
      && (forall a, b :: a in mux.pendingCalls && b in mux.pendingCalls && a != b ==>
            mux.pendingCalls[a] != mux.pendingCalls[b])
      && (forall a, b :: a in mux.openChannels && b in mux.pendingCalls ==> mux.openChannels[a] != mux.pendingCalls[b])
    }

    /** A websocket as connect() leaves it (connected) or before it (not). */
    constructor (connected: bool)
      ensures Valid() && fresh(mux)
      ensures this.connected == connected
      ensures mux.openChannels == map[] && mux.pendingCalls == map[]
    {
      mux := new Multiplexer<RxQueue>();
      this.connected := connected;
    }

    /** open_channel's registration: a new queue under a new channel ID. */
    method RegisterChannel() returns (id: int, rxQueue: RxQueue)
      requires Valid()
      modifies mux
      ensures Valid() && fresh(rxQueue) && rxQueue.items == []
      ensures id !in old(mux.openChannels) && mux.openChannels == old(mux.openChannels)[id := rxQueue]
      ensures mux.pendingCalls == old(mux.pendingCalls)
    {
      rxQueue := new RxQueue();
      id := mux.AssignChannelId(rxQueue);
    }

    /** remote_call's registration: a new queue under a new call ID. */
    method RegisterCall() returns (id: int, rxQueue: RxQueue)
      requires Valid()
      modifies mux
      ensures Valid() && fresh(rxQueue) && rxQueue.items == []
      ensures id !in old(mux.pendingCalls) && mux.pendingCalls == old(mux.pendingCalls)[id := rxQueue]
      ensures mux.openChannels == old(mux.openChannels)
    {
      rxQueue := new RxQueue();
      id := mux.AssignCallId(rxQueue);
    }

    /**
     * _enqueue_message: a routed message is appended to its one queue and
     * reported as taken; a dropped one touches no queue.
     */
    method EnqueueMessage(message: Json) returns (r: Result<bool>)
      requires Valid()
      modifies mux.AllQueues()
      ensures var route := old(mux.MapRxMessage(message));
        && (route.Err? ==> r == Err(route.error))
        && (route.Ok? ==> r == Ok(route.value.Deliver?))
        && (route.Ok? && route.value.Deliver? ==>
              route.value.queue.items == old(route.value.queue.items) + [Some(message)])
        && (forall q :: q in old(mux.AllQueues()) && !(route.Ok? && route.value.Deliver? && q == route.value.queue) ==>
              q.items == old(q.items))
    {
      var route := mux.MapRxMessage(message);
      if route.Err? {
        return Err(route.error);
      }
      if route.value.Drop? {
        return Ok(false);
      }
      route.value.queue.Put(Some(message));
      r := Ok(true);
    }

    /** _notify_client_termination: one `None` on every registered queue. */
    method NotifyClientTermination()
      requires Valid()
      modifies mux.AllQueues()
      ensures forall q :: q in old(mux.AllQueues()) ==> q.items == old(q.items) + [None]
    {
      var todo := mux.AllQueues();
      ghost var all := todo;
      while todo != {}
        invariant todo <= all
        invariant forall q :: q in all ==> q.items == old(q.items) + (if q in todo then [] else [None])
        decreases todo
      {
        var q :| q in todo;
        q.Put(None);
        todo := todo - {q};
      }
    }

    /** disconnect: the connection is dropped, and readers are woken only if there was one. */
    method Disconnect()
      requires Valid()
      modifies this, mux.AllQueues()
      ensures !connected
      ensures forall q :: q in old(mux.AllQueues()) ==>
        q.items == if old(connected) then old(q.items) + [None] else old(q.items)
    {
      var was := connected;
      connected := false;
      if was {
        NotifyClientTermination();
      }
    }
  }

  /** The sync prediction stream: the shared stream state plus the channel it reads. */
  class PredictionStream {
    const base: Prediction.PredictionStreamBase
    var channel: Option<SyncChannel>

    constructor (base: Prediction.PredictionStreamBase)
      ensures this.base == base && channel == None
    {
      this.base := base;
      channel := None;
    }

    /**
     * start: refused once the result is in or the request was sent;
     * otherwise `requested` (the channel the request was sent on) is kept and
     * the stream is marked started.
     */
    method Start(requested: SyncChannel) returns (r: Result<()>)
      modifies this, base
      ensures old(base.isFinished) || old(base.isStarted) ==>
        r == Err(RuntimeError) && channel == old(channel) && base.State() == old(base.State())
      ensures !old(base.isFinished) && !old(base.isStarted) ==>
        r == Ok(()) && channel == Some(requested) && base.State() == old(base.State()).(isStarted := true)
    {
      if base.isFinished {
        return Err(RuntimeError);
      }
      if base.isStarted {
        return Err(RuntimeError);
      }
      channel := Some(requested);
      base.MarkStarted();
      r := Ok(());
    }

    /** close: a started, unfinished stream ends with a cancellation error; the channel is released. */
    method Close()
      modifies this, base
      ensures channel == None
      ensures base.State() == if old(base.isStarted) && !old(base.isFinished)
        then Prediction.StreamSetError(old(base.State()), CancelledError)
        else old(base.State())
    {
      if base.isStarted && !base.isFinished {
        base.SetError(CancelledError);
      }
      channel := None;
    }

    /** cancel: only an unfinished stream holding a channel marks its endpoint cancelled and cancels the channel. */
    method Cancel()
      modifies base.endpoint, if channel.Some? then {channel.value} else {}
      ensures !old(base.isFinished) && channel.Some? ==>
        && base.endpoint.State() == old(base.endpoint.State()).(isCancelled := true)
        && channel.value.sent == (if old(channel.value.isFinished) then old(channel.value.sent)
                                  else old(channel.value.sent) + [channel.value.handler.CancelMessage()])
      ensures old(base.isFinished) || channel.None? ==>
        base.endpoint.State() == old(base.endpoint.State())
        && (channel.Some? ==> channel.value.sent == old(channel.value.sent))
    {
      if !base.isFinished && channel.Some? {
        base.MarkCancelled();
        channel.value.Cancel();
      }
    }
  }

  /** A client session for one API namespace; it connects on first use. */
  class Session {
    const namespace: string

    constructor (namespace: string)
      ensures this.namespace == namespace
    {
      this.namespace := namespace;
    }
  }

  class Client {
    const apiHost: Option<string>
    var sessions: map<string, Session>
    /** The exit stack: every session created, in creation order. */
    var resources: seq<Session>

    /** One session per namespace, each registered once for closing. */
    ghost predicate Valid()
      reads this
    {
      && (forall ns :: ns in sessions ==> sessions[ns].namespace == ns)
      && (forall i, j :: 0 <= i < j < |resources| ==> resources[i] != resources[j])
      && (forall i :: 0 <= i < |resources| ==> resources[i] in sessions.Values)
      && (forall ns :: ns in sessions ==> sessions[ns] in resources)
    }

    constructor (apiHost: Option<string>)
      ensures Valid()
      ensures this.apiHost == apiHost && sessions == map[] && resources == []
    {
      this.apiHost := apiHost;
      sessions := map[];
      resources := [];
    }

    /**
     * _get_session: the namespace's session if there is one, else a new
     * session, remembered and pushed on the exit stack.
     */
    method GetSession(namespace: string) returns (s: Session)
      requires Valid()
      modifies this
      ensures Valid()
      ensures s.namespace == namespace
      ensures namespace in old(sessions) ==> s == old(sessions)[namespace] && sessions == old(sessions) && resources == old(resources)
      ensures namespace !in old(sessions) ==>
        fresh(s) && sessions == old(sessions)[namespace := s] && resources == old(resources) + [s]
    {
      if namespace in sessions {
        return sessions[namespace];
      }
      s := new Session(namespace);
      ghost var before := sessions;
      ghost var stack := resources;
      sessions := sessions[namespace := s];
      resources := resources + [s];
      assert sessions[namespace] == s;
      forall i | 0 <= i < |resources| - 1
        ensures resources[i] in sessions.Values
      {
        assert resources[i] == stack[i] && stack[i] in before.Values;
        var ns :| ns in before && before[ns] == resources[i];
        assert sessions[ns] == resources[i];
      }
    }
  }

  /** The module-level default client and the host it is to use. */
  class DefaultClient {
    var apiHost: Option<string>
    var client: Option<Client>

    constructor ()
      ensures apiHost.None? && client.None?
    {
      apiHost := None;
      client := None;
    }

    /** configure_default_client: refused once the default client exists. */
    method Configure(host: string) returns (r: Result<()>)
      modifies this
      ensures old(client).Some? ==> r == Err(ClientError) && apiHost == old(apiHost) && client == old(client)
      ensures old(client).None? ==> r == Ok(()) && apiHost == Some(host) && client == old(client)
    {
      if client.Some? {
        return Err(ClientError);
      }
      apiHost := Some(host);
      r := Ok(());
    }

    /**
     * get_default_client: a host given after the client exists is refused;
     * otherwise the one default client, created on first use with the
     * configured host.
     */
    method GetDefault(host: Option<string>) returns (r: Result<Client>)
      modifies this
      ensures host.Some? && old(client).Some? ==> r == Err(ClientError) && client == old(client)
      ensures !(host.Some? && old(client).Some?) ==> r.Ok? && client == Some(r.value)
      ensures old(client).Some? && host.None? ==> r == Ok(old(client).value)
      ensures old(client).None? ==> (
        && r.Ok? && fresh(r.value)
        && r.value.apiHost == (if host.Some? then host else old(apiHost))
        && r.value.sessions == map[])
    {
      if host.Some? {
        var configured := Configure(host.value);
        if configured.Err? {
          return Err(configured.error);
        }
      }
      if client.None? {
        var c := new Client(apiHost);
        client := Some(c);
      }
      r := Ok(client.value);
    }
  }

  /**
   * act's round limit: a limit below 1 raises ValueError; otherwise the
   * index of the final round (where tool use is no longer offered), or -1
   * when there is no limit.
   */
  function FinalRoundIndex(maxPredictionRounds: Option<int>): (r: Result<int>)
    ensures r.Err? <==> maxPredictionRounds.Some? && maxPredictionRounds.value < 1
    ensures r.Err? ==> r.error == ValueError
    ensures r.Ok? && maxPredictionRounds.Some? ==> r.value == maxPredictionRounds.value - 1
    ensures maxPredictionRounds.None? ==> r == Ok(-1)
  {
    match maxPredictionRounds
    case None => Ok(-1)
    case Some(n) => if n < 1 then Err(ValueError) else Ok(n - 1)
  }
}
