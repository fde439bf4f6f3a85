/**
 * The simulated transport the chat view runs against.  It keeps the same
 * one-handler-per-channel table as the real client; `send` answers a query
 * with an assistant message and then two retrieved pages, and an upload with
 * an `upload_complete` event, each after a fixed delay.
 *
 * `setTimeout` is a queue of pending timers, each with the time it is due;
 * `Step` runs the timer the event loop would run next (the earliest due,
 * the first scheduled among equals).  A timer looks its handlers up when it
 * runs, not when it is scheduled, and skips a channel nobody listens to.
 * A query's timer reads both the `message` and the `documents` handler from
 * the table as it starts, where the code looks up `documents` only after the
 * `message` handler has returned; the two differ only when that handler
 * re-registers a channel, which the view's handlers never do.
 */
module MockSocket {
  import opened Wire

  /** Delays, in milliseconds, of the simulated replies. */
  const AnswerDelay: int := 1000
  const UploadDelay: int := 1500

  /** What a pending timer will do when it runs. */
  datatype Reply = AnswerQuery(text: string) | ConfirmUpload

  datatype Timer = Timer(due: int, reply: Reply)

  const AnswerPrefix: string := "This is a mock response to: \""
  const AnswerSuffix: string := "\"\n\n```python\nprint(\"Hello World!\")\n```"

  /** The simulated answer: the question's text quoted, then a code block. */
  function MockAnswer(text: string): (r: string)
    ensures |r| == |AnswerPrefix| + |text| + |AnswerSuffix|
    ensures r[..|AnswerPrefix|] == AnswerPrefix
    ensures r[|AnswerPrefix|..|AnswerPrefix| + |text|] == text
    ensures r[|AnswerPrefix| + |text|..] == AnswerSuffix
  {
    AnswerPrefix + text + AnswerSuffix
  }

  /** `${data.text}`: the text of a query payload, "undefined" for any other payload. */
  function QueryTextOf(data: Payload): (r: string)
    ensures data.QueryText? ==> r == data.text
    ensures !data.QueryText? ==> r == "undefined"
  {
    if data.QueryText? then data.text else "undefined"
  }

  const PageImage: string := "https://images.unsplash.com/photo-1706880095428-cf2f7901c5a3?w=500&auto=format"
  const PagePdf: string := "https://example.com/doc1.pdf"

  /** The two pages every simulated retrieval returns. */
  function MockDocuments(): (docs: seq<Document>)
    ensures |docs| == 2
    ensures docs[0].id == "1" && docs[0].pageNumber == 1 && docs[0].score == 0.95
    ensures docs[1].id == "2" && docs[1].pageNumber == 2 && docs[1].score == 0.85
    ensures forall i :: 0 <= i < 2 ==> docs[i].imageUrl == PageImage && docs[i].pdfUrl == PagePdf
  {
    [Document("1", 1, PageImage, 0.95, PagePdf), Document("2", 2, PageImage, 0.85, PagePdf)]
  }

  /** The timers one `send` schedules: a query and an upload get one each, any other channel none. */
  function Schedule(channel: string, data: Payload, now: int): (ts: seq<Timer>)
    ensures channel == QueryChannel ==> ts == [Timer(now + AnswerDelay, AnswerQuery(QueryTextOf(data)))]
    ensures channel == UploadChannel ==> ts == [Timer(now + UploadDelay, ConfirmUpload)]
    ensures channel != QueryChannel && channel != UploadChannel ==> ts == []
  {
    (if channel == QueryChannel then [Timer(now + AnswerDelay, AnswerQuery(QueryTextOf(data)))] else [])
    + (if channel == UploadChannel then [Timer(now + UploadDelay, ConfirmUpload)] else [])
  }

  /**
   * The handler calls a timer makes when it runs: for a query, the answer to
   * the `message` handler and then the two pages to the `documents` handler;
   * for an upload, an empty payload to the `upload_complete` handler.  A
   * channel without a handler is skipped.
   */
  function Replies<H>(handlers: map<string, H>, reply: Reply): (ds: seq<Delivery<H>>)
    ensures reply.AnswerQuery? ==>
      && |ds| == (if MessageChannel in handlers then 1 else 0) + (if DocumentsChannel in handlers then 1 else 0)
      && (MessageChannel in handlers ==> ds[0] == Delivery(handlers[MessageChannel], Content(MockAnswer(reply.text))))
      && (DocumentsChannel in handlers ==> ds[|ds| - 1] == Delivery(handlers[DocumentsChannel], Docs(MockDocuments())))
    ensures reply.ConfirmUpload? ==>
      && |ds| == (if UploadCompleteChannel in handlers then 1 else 0)
      && (UploadCompleteChannel in handlers ==> ds[0] == Delivery(handlers[UploadCompleteChannel], EmptyObject))
  {
    match reply
    case AnswerQuery(text) =>
      (if MessageChannel in handlers then [Delivery(handlers[MessageChannel], Content(MockAnswer(text)))] else [])
      + (if DocumentsChannel in handlers then [Delivery(handlers[DocumentsChannel], Docs(MockDocuments()))] else [])
    case ConfirmUpload =>
      if UploadCompleteChannel in handlers then [Delivery(handlers[UploadCompleteChannel], EmptyObject)] else []
  }

  /** The timer the event loop runs next: the earliest due, and the first scheduled among equals. */
  function Earliest(ts: seq<Timer>): (k: nat)
    requires ts != []
    ensures k < |ts|
    ensures forall j :: 0 <= j < |ts| ==> ts[k].due <= ts[j].due
    ensures forall j :: 0 <= j < k ==> ts[j].due > ts[k].due
  {
    if |ts| == 1 then
      0
    else
      var k := Earliest(ts[..|ts| - 1]);
      if ts[|ts| - 1].due < ts[k].due then |ts| - 1 else k
  }

  /** `{ files: files.map(f => f.name) }`: the names of the files, in order. */
  function UploadPayload(files: seq<File>): (p: Payload)
    ensures p.FileNames? && |p.files| == |files|
    ensures forall i :: 0 <= i < |files| ==> p.files[i] == files[i].name
  {
    FileNames(seq(|files|, i requires 0 <= i < |files| => files[i].name))
  }

  class MockWebSocketService<H> {
    const url: string
    var handlers: map<string, H>
    /** Timers scheduled by `send` and not yet run. */
    var pending: seq<Timer>

    constructor (url: string)
      ensures this.url == url && handlers == map[] && pending == []
    {
      this.url := url;
      handlers := map[];
      pending := [];
    }

    /** `connect` only logs: no handler and no timer changes. */
    method Connect()
      ensures handlers == old(handlers) && pending == old(pending)
    {
    }

    /** `on`: `handler` becomes the only handler of `channel`; other channels keep theirs. */
    method On(channel: string, handler: H)
      modifies this`handlers
      ensures channel in handlers && handlers[channel] == handler
      ensures forall c :: c != channel ==> (c in handlers <==> c in old(handlers))
      ensures forall c :: c != channel && c in handlers ==> handlers[c] == old(handlers)[c]
      ensures pending == old(pending)
    {
      handlers := handlers[channel := handler];
    }

    /** `send` at clock reading `now`: schedules the simulated reply, if the channel has one. */
    method Send(channel: string, data: Payload, now: int)
      modifies this`pending
      ensures pending == old(pending) + Schedule(channel, data, now)
      ensures handlers == old(handlers)
    {
      if channel == QueryChannel {
        pending := pending + [Timer(now + AnswerDelay, AnswerQuery(QueryTextOf(data)))];
      }
      if channel == UploadChannel {
        pending := pending + [Timer(now + UploadDelay, ConfirmUpload)];
      }
    }

    /** `uploadFiles`: one send on `upload` with the file names, which schedules one confirmation. */
    method UploadFiles(files: seq<File>, now: int)
      modifies this`pending
      ensures pending == old(pending) + Schedule(UploadChannel, UploadPayload(files), now)
      ensures pending == old(pending) + [Timer(now + UploadDelay, ConfirmUpload)]
      ensures handlers == old(handlers)
    {
      Send(UploadChannel, UploadPayload(files), now);
    }

    /**
     * Runs the next pending timer, if any: it leaves the queue and its
     * handler calls are returned, in the order it makes them.
     */
    method Step() returns (ds: seq<Delivery<H>>)
      modifies this`pending
      ensures old(pending) == [] ==> ds == [] && pending == []
      ensures old(pending) != [] ==>
        var k := Earliest(old(pending));
        && pending == old(pending)[..k] + old(pending)[k + 1..]
        && ds == Replies(handlers, old(pending)[k].reply)
      ensures handlers == old(handlers)
    {
      if pending == [] {
        return [];
      }
      var k := Earliest(pending);
      ds := Replies(handlers, pending[k].reply);
      pending := pending[..k] + pending[k + 1..];
    }
  }

  /**
   * A query, with both reply channels listened to, is answered in one timer
   * run: the answer quoting the question goes to the `message` handler, then
   * the two pages to the `documents` handler.
   */
  method QueryIsAnswered<H>(url: string, onMessage: H, onDocuments: H, text: string, now: int)
    returns (ds: seq<Delivery<H>>, left: seq<Timer>)
    ensures ds == [Delivery(onMessage, Content(MockAnswer(text))), Delivery(onDocuments, Docs(MockDocuments()))]
    ensures left == []
  {
    var mock := new MockWebSocketService<H>(url);
    mock.Connect();
    mock.On(MessageChannel, onMessage);
    mock.On(DocumentsChannel, onDocuments);
    mock.Send(QueryChannel, QueryText(text), now);
    ds := mock.Step();
    left := mock.pending;
  }

  /**
   * An upload started before a query is confirmed after the query's answer
   * when the query is sent less than 500 ms later: the replies follow their
   * delays, not the order of the sends.  A reply whose channel nobody
   * listens to is skipped.
   */
  method RepliesFollowDelays<H>(url: string, onUpload: H, files: seq<File>, text: string, start: int, gap: nat)
    returns (first: seq<Delivery<H>>, second: seq<Delivery<H>>)
    requires gap < UploadDelay - AnswerDelay
    ensures first == []
    ensures second == [Delivery(onUpload, EmptyObject)]
  {
    var mock := new MockWebSocketService<H>(url);
    mock.On(UploadCompleteChannel, onUpload);
    assert mock.handlers == map[UploadCompleteChannel := onUpload];
    var confirm := Timer(start + UploadDelay, ConfirmUpload);
    mock.UploadFiles(files, start);
    assert mock.pending == [confirm];
    var answer := Timer(start + gap + AnswerDelay, AnswerQuery(text));
    mock.Send(QueryChannel, QueryText(text), start + gap);
    assert mock.pending == [confirm, answer];
    assert Earliest(mock.pending) == 1;
    first := mock.Step();
    assert mock.pending == [confirm];
    second := mock.Step();
  }
}
