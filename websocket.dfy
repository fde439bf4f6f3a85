/**
 * The real-time transport client.  It owns a browser socket, replaced by a
 * fresh one on every `connect`, and a table with at most one handler per
 * channel.  Sends go out only on an open socket; inbound frames go to the
 * handler registered for their channel; a close schedules a reconnect.
 *
 * The browser's socket is a ready state plus the frames sent on it; its
 * events (handshake done, close, inbound frame) are methods the environment
 * calls.  A reconnect timer is a count of `setTimeout` callbacks not yet run.
 * Handlers are opaque values of type `H`; an inbound frame yields the
 * `Delivery` saying which handler runs with which argument.
 * Only the current socket is modelled: a socket that a later `connect`
 * replaced is forgotten, although in the browser it stays open, still
 * dispatches its frames and, when it closes, schedules a reconnect.
 */
module WebSocketClient {
  import opened Wire

  datatype ReadyState = Connecting | Open | Closed

  /** The form field name `uploadFiles` appends each file under. */
  const FileField: string := "file"

  /** A browser socket. */
  class Socket {
    const url: string
    var readyState: ReadyState
    var sent: seq<Frame>

    constructor (url: string)
      ensures this.url == url && readyState == Connecting && sent == []
    {
      this.url := url;
      readyState := Connecting;
      sent := [];
    }
  }

  /** The multipart form `uploadFiles` builds: one `file` entry per file, in order. */
  method BuildForm(files: seq<File>) returns (form: seq<FormEntry>)
    ensures |form| == |files|
    ensures forall i :: 0 <= i < |files| ==> form[i].key == FileField && form[i].file == files[i]
  {
    form := [];
    for i := 0 to |files|
      invariant |form| == i
      invariant forall j :: 0 <= j < i ==> form[j].key == FileField && form[j].file == files[j]
    {
      form := form + [FormEntry(FileField, files[i])];
    }
  }

  class WebSocketService<H> {
    const url: string
    var ws: Socket?
    var handlers: map<string, H>
    /** Reconnect callbacks scheduled by `onclose` and not yet run. */
    var reconnectTimers: nat

    constructor (url: string)
      ensures this.url == url && ws == null && handlers == map[] && reconnectTimers == 0
    {
      this.url := url;
      ws := null;
      handlers := map[];
      reconnectTimers := 0;
    }

    /** `connect`: a fresh socket to `url`; the handler table is kept; the replaced socket is not closed, only forgotten. */
    method Connect()
      modifies this`ws
      ensures fresh(ws) && ws.url == url && ws.readyState == Connecting && ws.sent == []
      ensures handlers == old(handlers) && reconnectTimers == old(reconnectTimers)
    {
      ws := new Socket(url);
    }

    /** `on`: `handler` becomes the only handler of `channel`; other channels keep theirs. */
    method On(channel: string, handler: H)
      modifies this`handlers
      ensures channel in handlers && handlers[channel] == handler
      ensures forall c :: c != channel ==> (c in handlers <==> c in old(handlers))
      ensures forall c :: c != channel && c in handlers ==> handlers[c] == old(handlers)[c]
      ensures handlers.Keys == old(handlers).Keys + {channel}
    {
      handlers := handlers[channel := handler];
    }

    /** `send`: one frame goes out if the socket is open; otherwise nothing happens. */
    method Send(channel: string, data: Payload)
      modifies ws
      ensures ws != null && old(ws.readyState) == Open ==> ws.sent == old(ws.sent) + [Frame(channel, data)]
      ensures ws != null && old(ws.readyState) != Open ==> ws.sent == old(ws.sent)
      ensures ws != null ==> ws.readyState == old(ws.readyState)
    {
      if ws != null && ws.readyState == Open {
        ws.sent := ws.sent + [Frame(channel, data)];
      }
    }

    /** `uploadFiles`: one send on `upload` carrying one form entry per file. */
    method UploadFiles(files: seq<File>)
      modifies ws
      ensures ws != null && old(ws.readyState) == Open ==>
        exists form :: |form| == |files| && (forall i :: 0 <= i < |files| ==> form[i] == FormEntry(FileField, files[i]))
                    && ws.sent == old(ws.sent) + [Frame(UploadChannel, Form(form))]
      ensures ws != null && old(ws.readyState) != Open ==> ws.sent == old(ws.sent)
      ensures ws != null ==> ws.readyState == old(ws.readyState)
    {
      var form := BuildForm(files);
      Send(UploadChannel, Form(form));
    }

    /** The browser completed the opening handshake of the current socket. */
    method SocketOpened()
      modifies ws
      ensures ws != null ==> ws.sent == old(ws.sent)
      ensures ws != null ==> ws.readyState == if old(ws.readyState) == Connecting then Open else old(ws.readyState)
    {
      if ws != null && ws.readyState == Connecting {
        ws.readyState := Open;
      }
    }

    /** The current socket closed: `onclose` schedules one reconnect. */
    method SocketClosed()
      modifies ws, this`reconnectTimers
      ensures ws != null ==> ws.sent == old(ws.sent) && ws.readyState == Closed
      ensures reconnectTimers == old(reconnectTimers) + if ws != null && old(ws.readyState) != Closed then 1 else 0
      ensures handlers == old(handlers)
    {
      if ws != null && ws.readyState != Closed {
        ws.readyState := Closed;
        reconnectTimers := reconnectTimers + 1;
      }
    }

    /** A scheduled reconnect runs `connect`; with none scheduled nothing happens. */
    method ReconnectTimerFires()
      modifies this`ws, this`reconnectTimers
      ensures old(reconnectTimers) == 0 ==> ws == old(ws) && reconnectTimers == 0
      ensures old(reconnectTimers) > 0 ==>
        && reconnectTimers == old(reconnectTimers) - 1
        && fresh(ws) && ws.url == url && ws.readyState == Connecting && ws.sent == []
      ensures handlers == old(handlers)
    {
      if reconnectTimers > 0 {
        reconnectTimers := reconnectTimers - 1;
        Connect();
      }
    }

    /**
     * `onmessage`: a frame on the open socket is handed, with its data, to
     * the handler of its channel, once; a frame nobody listens to is dropped.
     */
    method Receive(frame: Frame) returns (d: Option<Delivery<H>>)
      requires ws != null && ws.readyState == Open
      ensures d.Some? <==> frame.channel in handlers
      ensures d.Some? ==> d.value.handler == handlers[frame.channel] && d.value.data == frame.data
    {
      if frame.channel in handlers {
        d := Some(Delivery(handlers[frame.channel], frame.data));
      } else {
        d := None;
      }
    }
  }

  /**
   * A connection drop: sends before the handshake are dropped, and after
   * the close, the scheduled reconnect and a new handshake, sends go out on
   * the new socket and the handler registered before the drop still gets
   * the frames of its channel.
   */
  method ReconnectKeepsHandlers<H>(url: string, handler: H, query: Payload, frame: Frame)
    returns (sentBeforeOpen: seq<Frame>, sentAfterReconnect: seq<Frame>, d: Option<Delivery<H>>)
    ensures sentBeforeOpen == []
    ensures sentAfterReconnect == [Frame(QueryChannel, query)]
    ensures d == Some(Delivery(handler, frame.data))
  {
    var client := new WebSocketService<H>(url);
    client.On(frame.channel, handler);
    client.Connect();
    client.Send(QueryChannel, query);
    sentBeforeOpen := client.ws.sent;
    client.SocketOpened();
    client.SocketClosed();
    client.ReconnectTimerFires();
    client.SocketOpened();
    client.Send(QueryChannel, query);
    sentAfterReconnect := client.ws.sent;
    d := client.Receive(frame);
  }
}
