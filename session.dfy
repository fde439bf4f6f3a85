/**
 * The chat view wired to the simulated transport, as the application runs:
 * one simulator at module level, and on mount `connect` plus one handler
 * per inbound channel.  The view's transport calls go to the simulator;
 * each run of a simulator timer calls the view's handlers in order.
 *
 * The simulator's handler values are the view's three handlers, named by
 * `AppHandler`; a delivery to one of them runs the matching `App` method.
 */
module ChatSession {
  import opened Wire
  import opened ChatState
  import Text
  import AppComponent
  import MockSocket

  datatype AppHandler = MessageHandler | DocumentsHandler | UploadCompleteHandler

  const ServerUrl: string := "ws://localhost:50000"

  /** The handler table after mounting. */
  function Registered(): (m: map<string, AppHandler>)
    ensures m.Keys == {MessageChannel, DocumentsChannel, UploadCompleteChannel}
  {
    map[MessageChannel := MessageHandler, DocumentsChannel := DocumentsHandler,
        UploadCompleteChannel := UploadCompleteHandler]
  }

  /**
   * The state change of one handler call made at clock readings `now`,
   * `time`.  A payload of a shape the handler does not expect leaves the
   * state alone; the simulator never sends one (see `RepliesAreWellShaped`).
   */
  function Handle(s: AppState, d: Delivery<AppHandler>, now: nat, time: int): (r: AppState)
    ensures r.input == s.input && r.showDocuments == s.showDocuments
    ensures |s.messages| <= |r.messages| <= |s.messages| + 1 && r.messages[..|s.messages|] == s.messages
    ensures d.handler == DocumentsHandler ==> r.messages == s.messages
    ensures d.handler != DocumentsHandler && WellShaped(d) ==> |r.messages| == |s.messages| + 1
  {
    match d.handler
    case MessageHandler => if d.data.Content? then ReceiveMessage(s, d.data.content, now, time) else s
    case DocumentsHandler => if d.data.Docs? then ReceiveDocuments(s, d.data.docs) else s
    case UploadCompleteHandler => ReceiveUploadComplete(s, now, time)
  }

  /** The handler calls `ds`, made in order. */
  function HandleAll(s: AppState, ds: seq<Delivery<AppHandler>>, now: nat, time: int): (r: AppState)
    ensures r.input == s.input && r.showDocuments == s.showDocuments
    ensures |s.messages| <= |r.messages| <= |s.messages| + |ds| && r.messages[..|s.messages|] == s.messages
  {
    if ds == [] then s else Handle(HandleAll(s, ds[..|ds| - 1], now, time), ds[|ds| - 1], now, time)
  }

  /** The payload shape each of the view's handlers reads. */
  predicate WellShaped(d: Delivery<AppHandler>)
  {
    match d.handler
    case MessageHandler => d.data.Content?
    case DocumentsHandler => d.data.Docs?
    case UploadCompleteHandler => d.data == EmptyObject
  }

  /** Every handler call the simulator makes carries the payload shape that handler reads. */
  lemma RepliesAreWellShaped(reply: MockSocket.Reply)
    ensures forall i :: 0 <= i < |MockSocket.Replies(Registered(), reply)| ==>
      WellShaped(MockSocket.Replies(Registered(), reply)[i])
  {
    var ds := MockSocket.Replies(Registered(), reply);
    if reply.AnswerQuery? {
      assert ds == [Delivery(MessageHandler, Content(MockSocket.MockAnswer(reply.text))),
                    Delivery(DocumentsHandler, Docs(MockSocket.MockDocuments()))];
    }
  }

  /**
   * The run of a query's timer leaves the view with the simulated answer
   * appended to the log, no query awaited, and the two simulated pages shown.
   */
  lemma AnswerReachesView(s: AppState, question: string, now: nat, time: int)
    ensures var r := HandleAll(s, MockSocket.Replies(Registered(), MockSocket.AnswerQuery(question)), now, time);
      && r.messages == s.messages + [Message(Text.Decimal(now), MockSocket.MockAnswer(question), Assistant, time)]
      && !r.isLoading
      && r.documents == MockSocket.MockDocuments()
      && r.input == s.input && r.isUploading == s.isUploading && r.showDocuments == s.showDocuments
  {
    var ds := MockSocket.Replies(Registered(), MockSocket.AnswerQuery(question));
    assert ds == [Delivery(MessageHandler, Content(MockSocket.MockAnswer(question))),
                  Delivery(DocumentsHandler, Docs(MockSocket.MockDocuments()))];
    assert ds[..1] == [ds[0]] && ds[..1][..0] == [];
    var answered := ReceiveMessage(s, MockSocket.MockAnswer(question), now, time);
    assert HandleAll(s, ds[..1], now, time) == answered;
    assert HandleAll(s, ds, now, time) == ReceiveDocuments(answered, MockSocket.MockDocuments());
  }

  /**
   * The run of an upload's timer clears the upload flag and appends one
   * system confirmation, and nothing else.
   */
  lemma ConfirmationReachesView(s: AppState, now: nat, time: int)
    ensures var r := HandleAll(s, MockSocket.Replies(Registered(), MockSocket.ConfirmUpload), now, time);
      && r.messages == s.messages + [Message(Text.Decimal(now), UploadConfirmation, System, time)]
      && !r.isUploading
      && r.(messages := s.messages, isUploading := s.isUploading) == s
  {
    var ds := MockSocket.Replies(Registered(), MockSocket.ConfirmUpload);
    assert ds == [Delivery(UploadCompleteHandler, EmptyObject)];
    assert ds[..0] == [];
  }

  /** The timers a transport call of the view schedules on the simulator. */
  function Scheduled(call: Option<Call>, now: int): seq<MockSocket.Timer>
  {
    match call
    case None => []
    case Some(Send(channel, data)) => MockSocket.Schedule(channel, data, now)
    case Some(UploadFiles(files)) => MockSocket.Schedule(UploadChannel, MockSocket.UploadPayload(files), now)
  }

  class Session {
    const app: AppComponent.App
    const ws: MockSocket.MockWebSocketService<AppHandler>

    ghost predicate Valid()
      reads this, ws
    {
      ws.handlers == Registered()
    }

    /** Mounting the view: initial state, `connect`, and the three handlers registered. */
    constructor Mount(time: int)
      ensures Valid() && fresh(app) && fresh(ws)
      ensures app.State() == Initial(time) && ws.pending == []
    {
      var view := new AppComponent.App(time);
      var mock := new MockSocket.MockWebSocketService<AppHandler>(ServerUrl);
      mock.Connect();
      mock.On(MessageChannel, MessageHandler);
      mock.On(DocumentsChannel, DocumentsHandler);
      mock.On(UploadCompleteChannel, UploadCompleteHandler);
      app := view;
      ws := mock;
    }

    method Forward(call: Option<Call>, now: int)
      requires Valid()
      modifies ws
      ensures Valid() && ws.pending == old(ws.pending) + Scheduled(call, now)
    {
      match call
      case None =>
      case Some(Send(channel, data)) => ws.Send(channel, data, now);
      case Some(UploadFiles(files)) => ws.UploadFiles(files, now);
    }

    method Type(value: string)
      requires Valid()
      modifies app
      ensures Valid() && app.State() == EditInput(old(app.State()), value)
    {
      app.SetInput(value);
    }

    /** The form's submit: the view's handler, then its call on the simulator. */
    method Submit(now: nat, time: int)
      requires Valid()
      modifies app, ws
      ensures Valid()
      ensures var t := ChatState.Submit(old(app.State()), now, time);
        app.State() == t.state && ws.pending == old(ws.pending) + Scheduled(t.call, now)
    {
      var call := app.HandleSubmit(now, time);
      Forward(call, now);
    }

    /** The file input's change: the view's handler, then its call on the simulator. */
    method SelectFiles(files: Option<seq<File>>, now: int)
      requires Valid()
      modifies app, ws
      ensures Valid()
      ensures var t := ChatState.SelectFiles(old(app.State()), files);
        app.State() == t.state && ws.pending == old(ws.pending) + Scheduled(t.call, now)
    {
      var call := app.HandleFileUpload(files);
      Forward(call, now);
    }

    method TogglePanel()
      requires Valid()
      modifies app
      ensures Valid() && app.State() == ToggleDocuments(old(app.State()))
    {
      app.ToggleDocuments();
    }

    /** One handler call: the view's method for that handler runs with the payload. */
    method Invoke(d: Delivery<AppHandler>, now: nat, time: int)
      modifies app
      ensures app.State() == Handle(old(app.State()), d, now, time)
    {
      match d.handler
      case MessageHandler =>
        if d.data.Content? {
          app.OnMessage(d.data.content, now, time);
        }
      case DocumentsHandler =>
        if d.data.Docs? {
          app.OnDocuments(d.data.docs);
        }
      case UploadCompleteHandler =>
        app.OnUploadComplete(now, time);
    }

    /** The next simulator timer runs and calls the view's handlers, in order. */
    method Tick(now: nat, time: int) returns (ds: seq<Delivery<AppHandler>>)
      requires Valid()
      modifies app, ws
      ensures Valid()
      ensures old(ws.pending) == [] ==> ds == [] && ws.pending == []
      ensures old(ws.pending) != [] ==>
        var k := MockSocket.Earliest(old(ws.pending));
        && ws.pending == old(ws.pending)[..k] + old(ws.pending)[k + 1..]
        && ds == MockSocket.Replies(Registered(), old(ws.pending)[k].reply)
      ensures app.State() == HandleAll(old(app.State()), ds, now, time)
    {
      ds := ws.Step();
      ghost var left := ws.pending;
      var i := 0;
      while i < |ds|
        invariant 0 <= i <= |ds| && Valid() && ws.pending == left
        invariant app.State() == HandleAll(old(app.State()), ds[..i], now, time)
      {
        assert ds[..i + 1][..i] == ds[..i];
        Invoke(ds[i], now, time);
        i := i + 1;
      }
      assert ds[..i] == ds;
    }
  }

  /** A non-blank question submitted right after mounting: the log holds the greeting and the question. */
  lemma SubmitAfterMount(question: string, mounted: int, now: nat, time: int)
    requires !Text.IsBlank(question)
    ensures var t := ChatState.Submit(Initial(mounted).(input := question), now, time);
      && t.state.messages == [Message(GreetingId, Greeting, Assistant, mounted), Message(Text.Decimal(now), question, User, time)]
      && t.state.isLoading
      && t.call == Some(Send(QueryChannel, QueryText(question)))
  {
  }

  /**
   * Asking a question and receiving the simulated answer: the submit adds
   * the question and sets the view waiting; the timer run adds the answer,
   * clears the wait and shows the two retrieved pages.  The log grows by two.
   */
  method AskAndAnswer(question: string, mounted: int, now: nat, time: int, later: nat, laterTime: int)
    returns (logAfterSubmit: seq<Message>, waiting: bool, finalLog: seq<Message>, finalWaiting: bool, docs: seq<Document>)
    requires !Text.IsBlank(question)
    ensures logAfterSubmit == [Message(GreetingId, Greeting, Assistant, mounted), Message(Text.Decimal(now), question, User, time)]
    ensures waiting
    ensures finalLog == logAfterSubmit + [Message(Text.Decimal(later), MockSocket.MockAnswer(question), Assistant, laterTime)]
    ensures !finalWaiting
    ensures docs == MockSocket.MockDocuments()
  {
    var session := new Session.Mount(mounted);
    session.Type(question);
    ghost var typed := session.app.State();
    assert typed == Initial(mounted).(input := question);
    assert CanSubmit(typed);
    session.Submit(now, time);
    ghost var timers := session.ws.pending;
    assert timers == [MockSocket.Timer(now + MockSocket.AnswerDelay, MockSocket.AnswerQuery(question))];
    assert MockSocket.Earliest(timers) == 0;
    logAfterSubmit, waiting := session.app.messages, session.app.isLoading;
    ghost var asked := session.app.State();
    assert asked == ChatState.Submit(typed, now, time).state;
    SubmitAfterMount(question, mounted, now, time);
    var ds := session.Tick(later, laterTime);
    assert ds == MockSocket.Replies(Registered(), timers[0].reply);
    AnswerReachesView(asked, question, later, laterTime);
    finalLog, finalWaiting, docs := session.app.messages, session.app.isLoading, session.app.documents;
  }

  /**
   * A second submit while the first query awaits its answer is refused: one
   * question in the log, one reply scheduled.
   */
  method SecondSubmitRefused(first: string, second: string, mounted: int, now: nat, time: int, now2: nat, time2: int)
    returns (log: seq<Message>, pendingReplies: nat)
    requires !Text.IsBlank(first)
    ensures log == [Message(GreetingId, Greeting, Assistant, mounted), Message(Text.Decimal(now), first, User, time)]
    ensures pendingReplies == 1
  {
    var session := new Session.Mount(mounted);
    session.Type(first);
    session.Submit(now, time);
    SubmitAfterMount(first, mounted, now, time);
    ghost var asked := session.app.State();
    session.Type(second);
    assert !CanSubmit(session.app.State());
    session.Submit(now2, time2);
    assert session.app.messages == asked.messages;
    log, pendingReplies := session.app.messages, |session.ws.pending|;
  }

  /**
   * Uploading files: the view shows an upload in progress until the
   * simulated confirmation arrives, which clears it and adds one system
   * message.
   */
  method UploadAndConfirm(files: seq<File>, mounted: int, now: nat, later: nat, laterTime: int)
    returns (uploading: bool, finalUploading: bool, finalLog: seq<Message>)
    requires files != []
    ensures uploading
    ensures !finalUploading
    ensures finalLog == [Message(GreetingId, Greeting, Assistant, mounted),
                         Message(Text.Decimal(later), UploadConfirmation, System, laterTime)]
  {
    var session := new Session.Mount(mounted);
    session.SelectFiles(Some(files), now);
    assert session.app.State() == Initial(mounted).(isUploading := true);
    assert session.ws.pending == [MockSocket.Timer(now + MockSocket.UploadDelay, MockSocket.ConfirmUpload)];
    uploading := session.app.isUploading;
    ghost var started := session.app.State();
    var ds := session.Tick(later, laterTime);
    ConfirmationReachesView(started, later, laterTime);
    finalUploading, finalLog := session.app.isUploading, session.app.messages;
  }
}
