/** The server-side WebSocket connector listener (WebSocketServerConnectorListener.java)
    together with the handshake and first-read logic it drives (handleHandshake,
    executeOnOpenResource, readFirstFrame and closeDuringUnexpectedCondition in
    WebSocketUtil.java).

    The listener owns a connection table keyed by channel id. Each accepted
    connection also has a Ballerina connector object whose `isReady` flag gates the
    first `readNextFrame` call: the frame reader must be started exactly once. The
    transport calls the model makes are recorded, in order, in `trace`. */
module WebSocketConnectorListener {
  import opened Wrappers
  import opened JavaText
  import opened WebSocketUtil
  import opened WebSocketServices

  type ChannelId = string

  const OnOpenResourceName: string := "onOpen"
  const UnexpectedConditionCode: int := 1011
  const UnexpectedConditionReason: string := "Unexpected condition"

  /** WebSocketOpenConnectionInfo: the service serving the connection and its channel id. */
  datatype ConnectionInfo = ConnectionInfo(service: WebSocketService, channelId: ChannelId)

  /** What the listener asks of the transport and of the Ballerina runtime. */
  datatype Effect =
    | Handshake(subProtocols: Option<seq<string>>, idleTimeoutMillis: int, maxFrameSize: int)
    | Added(id: ChannelId)
    | EndpointReturned(id: ChannelId)
    | OnOpenSubmitted(id: ChannelId)
    | ReadNext(id: ChannelId)
    | ErrorPrinted(id: ChannelId)
    | Terminated(id: ChannelId, code: int, reason: string)
  {
    /** An effect on an already accepted connection. */
    predicate UsesConnection() {
      !Handshake? && !Added?
    }
  }

  /** How many times the frame reader of a connection has been started. */
  function ReadCount(trace: seq<Effect>, id: ChannelId): nat {
    if trace == [] then 0
    else ReadCount(trace[..|trace| - 1], id) + (if trace[|trace| - 1] == ReadNext(id) then 1 else 0)
  }

  lemma {:induction false} ReadCountAppend(a: seq<Effect>, b: seq<Effect>, id: ChannelId)
    ensures ReadCount(a + b, id) == ReadCount(a, id) + ReadCount(b, id)
    decreases |b|
  {
    if b == [] {
      assert a + b == a;
    } else {
      assert (a + b)[..|a + b| - 1] == a + b[..|b| - 1];
      ReadCountAppend(a, b[..|b| - 1], id);
    }
  }

  /** Every effect on a connection comes after the connection was added to the table. */
  ghost predicate AddedBeforeUse(trace: seq<Effect>) {
    forall i | 0 <= i < |trace| && trace[i].UsesConnection() :: Added(trace[i].id) in trace[..i]
  }

  lemma {:induction false} AddedBeforeUseAppend(trace: seq<Effect>, more: seq<Effect>)
    requires AddedBeforeUse(trace)
    requires forall k | 0 <= k < |more| && more[k].UsesConnection() ::
      Added(more[k].id) in trace || Added(more[k].id) in more[..k]
    ensures AddedBeforeUse(trace + more)
  {
    var t := trace + more;
    forall i | 0 <= i < |t| && t[i].UsesConnection()
      ensures Added(t[i].id) in t[..i]
    {
      if i < |trace| {
        assert t[..i] == trace[..i];
      } else {
        var k := i - |trace|;
        assert t[i] == more[k];
        assert t[..i] == trace + more[..k];
      }
    }
  }

  /** What follows the addConnection call of a successful handshake: the endpoint is
      handed to a waiting Ballerina caller, or else the service's `onOpen` resource
      is submitted, or else, when there is none, the frame reader is started. */
  function AfterAccept(service: WebSocketService, id: ChannelId, callerWaiting: bool): (e: Effect)
    ensures !e.Handshake? && e.id == id
    ensures e.ReadNext? <==> !callerWaiting && GetResourceByName(service, OnOpenResourceName).None?
  {
    if callerWaiting then EndpointReturned(id)
    else if GetResourceByName(service, OnOpenResourceName).Some? then OnOpenSubmitted(id)
    else ReadNext(id)
  }

  /** A second write to the same key hides the first: the connector's `isReady`
      set to false by addConnection and then to true by readFirstFrame. */
  lemma OverrideTwice<K, V>(m: map<K, V>, k: K, first: V, second: V)
    ensures m[k := first][k := second] == m[k := second]
  {
  }

  /** The idle timeout handed to the transport: seconds times 1000, as an `int` product. */
  function HandshakeIdleTimeoutMillis(service: WebSocketService): int {
    MulInt32(service.idleTimeoutInSeconds, 1000)
  }

  class ServerConnectorListener {
    /** The connection manager's table. */
    var connections: map<ChannelId, ConnectionInfo>
    /** The `isReady` field of each accepted connection's connector object; the
        object outlives the table entry. */
    var isReady: map<ChannelId, bool>
    /** The transport and runtime calls made so far. */
    var trace: seq<Effect>

    ghost predicate Valid()
      reads this
    {
      && connections.Keys <= isReady.Keys
      && (forall id | id in isReady :: Added(id) in trace)
      && (forall id :: ReadCount(trace, id) == (if id in isReady && isReady[id] then 1 else 0))
      && AddedBeforeUse(trace)
    }

    /** The table entry for a channel id, or null. */
    function Lookup(id: ChannelId): (r: Option<ConnectionInfo>)
      reads this
      ensures r.Some? <==> id in connections
      ensures r.Some? ==> r.value == connections[id]
    {
      if id in connections then Some(connections[id]) else None
    }

    /** Each listener owns a fresh, empty connection manager. */
    constructor ()
      ensures Valid()
      ensures connections == map[] && isReady == map[] && trace == []
    {
      connections := map[];
      isReady := map[];
      trace := [];
    }

    /** onHandshake: the dispatcher's chosen service (a parameter here) fixes the
        sub-protocols, the idle timeout in milliseconds and the maximum frame size. */
    method OnHandshake(service: WebSocketService)
      requires Valid()
      modifies this
      ensures Valid()
      ensures connections == old(connections) && isReady == old(isReady)
      ensures trace == old(trace) + [Handshake(service.negotiableSubProtocols,
                                               HandshakeIdleTimeoutMillis(service), service.maxFrameSize)]
    {
      var millis := MulInt32(service.idleTimeoutInSeconds, 1000);
      var before := trace;
      trace := trace + [Handshake(service.negotiableSubProtocols, millis, service.maxFrameSize)];
      forall id
        ensures ReadCount(trace, id) == ReadCount(before, id)
      {
        ReadCountAppend(before, [Handshake(service.negotiableSubProtocols, millis, service.maxFrameSize)], id);
      }
      AddedBeforeUseAppend(before, [Handshake(service.negotiableSubProtocols, millis, service.maxFrameSize)]);
    }

    /** Records a call on the transport or the runtime other than a frame read. */
    method Emit(e: Effect)
      requires Valid() && !e.ReadNext? && (e.UsesConnection() ==> e.id in isReady)
      modifies this
      ensures Valid()
      ensures connections == old(connections) && isReady == old(isReady)
      ensures trace == old(trace) + [e]
    {
      var before := trace;
      trace := trace + [e];
      forall other
        ensures ReadCount(trace, other) == ReadCount(before, other)
      {
        ReadCountAppend(before, [e], other);
      }
      AddedBeforeUseAppend(before, [e]);
    }

    /** readFirstFrame: start the frame reader, then mark the connector ready. */
    method ReadFirstFrame(id: ChannelId)
      requires Valid() && id in isReady && !isReady[id]
      modifies this
      ensures Valid()
      ensures connections == old(connections)
      ensures isReady == old(isReady)[id := true]
      ensures trace == old(trace) + [ReadNext(id)]
    {
      var before := trace;
      trace := trace + [ReadNext(id)];
      isReady := isReady[id := true];
      forall other
        ensures ReadCount(trace, other) == (if other in isReady && isReady[other] then 1 else 0)
      {
        ReadCountAppend(before, [ReadNext(id)], other);
        assert [ReadNext(id)][..0] == [];
      }
      AddedBeforeUseAppend(before, [ReadNext(id)]);
    }

    /** addConnection, with the new connector object not ready yet. */
    method Accept(service: WebSocketService, id: ChannelId)
      requires Valid() && id !in isReady
      modifies this
      ensures Valid()
      ensures connections == old(connections)[id := ConnectionInfo(service, id)]
      ensures isReady == old(isReady)[id := false]
      ensures trace == old(trace) + [Added(id)]
    {
      Emit(Added(id));
      assert ReadCount(trace, id) == 0;
      isReady := isReady[id := false];
      connections := connections[id := ConnectionInfo(service, id)];
      assert forall other | other != id :: ReadCount(trace, other) == (if other in isReady && isReady[other] then 1 else 0);
    }

    /** The onSuccess branch of handleHandshake. The connection is added to the table
        first. When a Ballerina caller waits for the endpoint it is handed over and no
        read starts; otherwise an `onOpen` resource is submitted, or, when the service
        has none, the frame reader starts at once. */
    method HandshakeSucceeded(service: WebSocketService, id: ChannelId, callerWaiting: bool)
      requires Valid() && id !in isReady
      modifies this
      ensures Valid()
      ensures connections == old(connections)[id := ConnectionInfo(service, id)]
      ensures isReady == old(isReady)[id := AfterAccept(service, id, callerWaiting).ReadNext?]
      ensures trace == old(trace) + [Added(id), AfterAccept(service, id, callerWaiting)]
    {
      Accept(service, id);
      RunAfterAccept(service, id, callerWaiting);
      OverrideTwice(old(isReady), id, false, AfterAccept(service, id, callerWaiting).ReadNext?);
    }

    /** What handleHandshake does once the connection is in the table: hand the
        endpoint to a waiting caller, or submit `onOpen`, or start the frame reader. */
    method RunAfterAccept(service: WebSocketService, id: ChannelId, callerWaiting: bool)
      requires Valid() && id in isReady && !isReady[id]
      modifies this
      ensures Valid()
      ensures connections == old(connections)
      ensures isReady == old(isReady)[id := AfterAccept(service, id, callerWaiting).ReadNext?]
      ensures trace == old(trace) + [AfterAccept(service, id, callerWaiting)]
    {
      var onOpen := GetResourceByName(service, OnOpenResourceName);
      if callerWaiting {
        Emit(EndpointReturned(id));
      } else if onOpen.Some? {
        Emit(OnOpenSubmitted(id));
      } else {
        ReadFirstFrame(id);
      }
    }

    /** Starts the frame reader of an accepted connection unless it was started
        already. */
    method ReadIfNotReady(id: ChannelId)
      requires Valid() && id in isReady
      modifies this
      ensures Valid()
      ensures connections == old(connections)
      ensures isReady == old(isReady)[id := true]
      ensures trace == old(trace) + (if old(isReady)[id] then [] else [ReadNext(id)])
    {
      if !isReady[id] {
        ReadFirstFrame(id);
      } else {
        assert isReady == old(isReady)[id := true];
        assert trace == old(trace) + [];
      }
    }

    /** A failed `onOpen`: the error is printed and the connection is terminated with
        1011 "Unexpected condition". */
    method TerminateOnFailure(id: ChannelId)
      requires Valid() && id in isReady
      modifies this
      ensures Valid()
      ensures connections == old(connections) && isReady == old(isReady)
      ensures trace == old(trace) + [ErrorPrinted(id), Terminated(id, UnexpectedConditionCode, UnexpectedConditionReason)]
    {
      Emit(ErrorPrinted(id));
      Emit(Terminated(id, UnexpectedConditionCode, UnexpectedConditionReason));
    }

    /** The callback of executeOnOpenResource. Success or failure, the frame reader
        is started only if it was not started already; a failure also prints the error
        and terminates the connection with 1011 "Unexpected condition". */
    method OnOpenCompleted(id: ChannelId, failed: bool)
      requires Valid() && id in isReady
      modifies this
      ensures Valid()
      ensures connections == old(connections)
      ensures isReady == old(isReady)[id := true]
      ensures trace == old(trace)
        + (if old(isReady)[id] then [] else [ReadNext(id)])
        + (if failed then [ErrorPrinted(id), Terminated(id, UnexpectedConditionCode, UnexpectedConditionReason)] else [])
    {
      ReadIfNotReady(id);
      if failed {
        TerminateOnFailure(id);
      } else {
        assert trace == trace + [];
      }
    }

    /** A text message goes to the dispatcher with the connection's entry, if any. */
    method OnTextMessage(id: ChannelId) returns (dispatched: Option<ConnectionInfo>)
      ensures dispatched == Lookup(id)
    {
      dispatched := Lookup(id);
    }

    /** A binary message: looked up, the table is left as it is. */
    method OnBinaryMessage(id: ChannelId) returns (dispatched: Option<ConnectionInfo>)
      ensures dispatched == Lookup(id)
    {
      dispatched := Lookup(id);
    }

    /** A control message: looked up, the table is left as it is. */
    method OnControlMessage(id: ChannelId) returns (dispatched: Option<ConnectionInfo>)
      ensures dispatched == Lookup(id)
    {
      dispatched := Lookup(id);
    }

    /** An idle timeout only looks the entry up: the connection stays registered. */
    method OnIdleTimeout(id: ChannelId) returns (dispatched: Option<ConnectionInfo>)
      ensures dispatched == Lookup(id)
    {
      dispatched := Lookup(id);
    }

    /** A close message removes the entry and hands the removed entry, possibly
        absent, to the dispatcher; later events for the id find nothing. */
    method OnCloseMessage(id: ChannelId) returns (dispatched: Option<ConnectionInfo>)
      requires Valid()
      modifies this
      ensures Valid()
      ensures dispatched == old(Lookup(id))
      ensures connections == old(connections) - {id}
      ensures Lookup(id).None?
      ensures isReady == old(isReady) && trace == old(trace)
    {
      dispatched := Lookup(id);
      connections := connections - {id};
    }

    /** A transport error removes the entry of the failing connection's channel id. */
    method OnError(id: ChannelId) returns (dispatched: Option<ConnectionInfo>)
      requires Valid()
      modifies this
      ensures Valid()
      ensures dispatched == old(Lookup(id))
      ensures connections == old(connections) - {id}
      ensures Lookup(id).None?
      ensures isReady == old(isReady) && trace == old(trace)
    {
      dispatched := Lookup(id);
      connections := connections - {id};
    }
  }

  /** In a valid listener the frame reader of a connection is started at most once,
      and only for a connection that was accepted. */
  lemma ReadAtMostOnce(l: ServerConnectorListener, id: ChannelId)
    requires l.Valid()
    ensures ReadCount(l.trace, id) <= 1
    ensures ReadCount(l.trace, id) == 1 ==> Added(id) in l.trace
  {
  }
}
