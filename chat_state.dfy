/**
 * The chat view's state and the transitions that change it, as values.
 * `AppState` holds the six pieces of component state; each transition
 * gives the next state and the call, if any, that the view makes into its
 * transport.  The class `App` (app.dfy) updates its fields exactly as these
 * functions say; the lemmas at the end are about whole runs of transitions.
 *
 * Message ids come from the wall clock (`now`, in milliseconds, rendered in
 * decimal) and timestamps are a second clock reading (`time`); both are
 * parameters, and nothing here claims that ids are unique.
 */
module ChatState {
  import opened Wire
  import Text

  const GreetingId: string := "1"
  const Greeting: string :=
    "Hello! I'm your AI assistant. You can ask me questions about your documents or upload a PDF to analyze."
  const UploadConfirmation: string := "Documents uploaded successfully"

  datatype AppState = AppState(
    messages: seq<Message>,
    input: string,
    isLoading: bool,
    documents: seq<Document>,
    showDocuments: bool,
    isUploading: bool)

  /** A call the view makes into its transport. */
  datatype Call = Send(channel: string, data: Payload) | UploadFiles(files: seq<File>)

  /** The state after one transition, and the transport call it made, if any. */
  datatype Transition = Transition(state: AppState, call: Option<Call>)

  /** The state the view mounts with. */
  function Initial(time: int): (s: AppState)
    ensures s.messages == [Message(GreetingId, Greeting, Assistant, time)]
    ensures s.input == [] && !s.isLoading && !s.isUploading
    ensures s.documents == [] && s.showDocuments
  {
    AppState([Message(GreetingId, Greeting, Assistant, time)], "", false, [], true, false)
  }

  /** A submit goes through: the input is not blank and no query is awaiting its answer. */
  predicate CanSubmit(s: AppState)
  {
    !Text.IsBlank(s.input) && !s.isLoading
  }

  /** The guard as the form writes it, `!input.trim() || isLoading`, refuses exactly what `CanSubmit` refuses. */
  lemma SubmitGuardIsTrim(s: AppState)
    ensures CanSubmit(s) <==> Text.Trim(s.input) != [] && !s.isLoading
  {
    Text.TrimEmptyIffBlank(s.input);
  }

  /** Typing into the text box. */
  function EditInput(s: AppState, value: string): (r: AppState)
    ensures r.input == value
    ensures r.(input := s.input) == s
  {
    s.(input := value)
  }

  /** Submitting the form, refused unless `CanSubmit` (the form's `trim` test, by `SubmitGuardIsTrim`). */
  function Submit(s: AppState, now: nat, time: int): (t: Transition)
    ensures t.call.Some? <==> CanSubmit(s)
    ensures !CanSubmit(s) ==> t.state == s
    ensures CanSubmit(s) ==>
      && t.state.messages == s.messages + [Message(Text.Decimal(now), s.input, User, time)]
      && t.state.input == [] && t.state.isLoading
      && t.state.documents == s.documents
      && t.state.showDocuments == s.showDocuments
      && t.state.isUploading == s.isUploading
      && t.call == Some(Send(QueryChannel, QueryText(s.input)))
  {
    if !CanSubmit(s) then
      Transition(s, None)
    else
      var question := Message(Text.Decimal(now), s.input, User, time);
      Transition(s.(messages := s.messages + [question], input := "", isLoading := true),
                 Some(Send(QueryChannel, QueryText(s.input))))
  }

  /** Picking files; `None` is a missing file list. */
  function SelectFiles(s: AppState, files: Option<seq<File>>): (t: Transition)
    ensures files == None || files.value == [] ==> t == Transition(s, None)
    ensures files.Some? && files.value != [] ==>
      t.state == s.(isUploading := true) && t.call == Some(UploadFiles(files.value))
  {
    if files == None || |files.value| == 0 then
      Transition(s, None)
    else
      Transition(s.(isUploading := true), Some(UploadFiles(files.value)))
  }

  /** The `message` handler: the answer joins the log and the view stops waiting. */
  function ReceiveMessage(s: AppState, content: string, now: nat, time: int): (r: AppState)
    ensures r.messages == s.messages + [Message(Text.Decimal(now), content, Assistant, time)]
    ensures !r.isLoading
    ensures r.(messages := s.messages, isLoading := s.isLoading) == s
  {
    s.(messages := s.messages + [Message(Text.Decimal(now), content, Assistant, time)], isLoading := false)
  }

  /** The `documents` handler: the payload becomes the document list. */
  function ReceiveDocuments(s: AppState, docs: seq<Document>): (r: AppState)
    ensures r.documents == docs
    ensures r.(documents := s.documents) == s
  {
    s.(documents := docs)
  }

  /** The `upload_complete` handler: the upload is over and a confirmation joins the log. */
  function ReceiveUploadComplete(s: AppState, now: nat, time: int): (r: AppState)
    ensures !r.isUploading
    ensures r.messages == s.messages + [Message(Text.Decimal(now), UploadConfirmation, System, time)]
    ensures r.(messages := s.messages, isUploading := s.isUploading) == s
  {
    s.(isUploading := false, messages := s.messages + [Message(Text.Decimal(now), UploadConfirmation, System, time)])
  }

  /** The documents panel's toggle. */
  function ToggleDocuments(s: AppState): (r: AppState)
    ensures r.showDocuments == !s.showDocuments
    ensures r.(showDocuments := s.showDocuments) == s
  {
    s.(showDocuments := !s.showDocuments)
  }

  /** Toggling the panel twice gives back the state it started from. */
  lemma ToggleTwice(s: AppState)
    ensures ToggleDocuments(ToggleDocuments(s)) == s
  {
  }

  /** Each `documents` event is a full snapshot: the earlier one leaves no trace. */
  lemma DocumentsLastWins(s: AppState, first: seq<Document>, second: seq<Document>)
    ensures ReceiveDocuments(ReceiveDocuments(s, first), second) == ReceiveDocuments(s, second)
  {
  }

  // ---------------------------------------------------------------------
  // Runs: what holds over any sequence of user actions and inbound events.

  datatype Event =
    | Typed(value: string)
    | Submitted(now: nat, time: int)
    | FilesSelected(files: Option<seq<File>>)
    | MessageReceived(content: string, now: nat, time: int)
    | DocumentsReceived(docs: seq<Document>)
    | UploadCompleted(now: nat, time: int)
    | PanelToggled

  function Apply(s: AppState, e: Event): Transition
  {
    match e
    case Typed(value) => Transition(EditInput(s, value), None)
    case Submitted(now, time) => Submit(s, now, time)
    case FilesSelected(files) => SelectFiles(s, files)
    case MessageReceived(content, now, time) => Transition(ReceiveMessage(s, content, now, time), None)
    case DocumentsReceived(docs) => Transition(ReceiveDocuments(s, docs), None)
    case UploadCompleted(now, time) => Transition(ReceiveUploadComplete(s, now, time), None)
    case PanelToggled => Transition(ToggleDocuments(s), None)
  }

  /** The final state of a run and the transport calls it made, in order. */
  datatype Trace = Trace(state: AppState, calls: seq<Call>)

  /** The calls a transition made, as a sequence of zero or one. */
  function CallsOf(c: Option<Call>): seq<Call>
  {
    if c.Some? then [c.value] else []
  }

  function Run(s: AppState, es: seq<Event>): Trace
    decreases |es|
  {
    if es == [] then
      Trace(s, [])
    else
      var t := Apply(s, es[0]);
      var rest := Run(t.state, es[1..]);
      Trace(rest.state, CallsOf(t.call) + rest.calls)
  }

  predicate IsQuery(c: Call)
  {
    c.Send? && c.channel == QueryChannel
  }

  /** The number of `query` sends among `calls`. */
  function QueriesSent(calls: seq<Call>): nat
  {
    if calls == [] then 0 else (if IsQuery(calls[0]) then 1 else 0) + QueriesSent(calls[1..])
  }

  /** The number of `message` events in a run. */
  function AnswersReceived(es: seq<Event>): nat
  {
    if es == [] then 0 else (if es[0].MessageReceived? then 1 else 0) + AnswersReceived(es[1..])
  }

  /** The number of `upload_complete` events in a run. */
  function UploadsCompleted(es: seq<Event>): nat
  {
    if es == [] then 0 else (if es[0].UploadCompleted? then 1 else 0) + UploadsCompleted(es[1..])
  }

  /** The number of messages of role `role` in a log. */
  function CountRole(ms: seq<Message>, role: Role): nat
  {
    if ms == [] then 0 else CountRole(ms[..|ms| - 1], role) + (if ms[|ms| - 1].role == role then 1 else 0)
  }

  lemma CountRoleAppend(ms: seq<Message>, m: Message, role: Role)
    ensures CountRole(ms + [m], role) == CountRole(ms, role) + (if m.role == role then 1 else 0)
  {
    assert (ms + [m])[..|ms|] == ms;
  }

  lemma QueriesSentCons(c: Option<Call>, rest: seq<Call>)
    ensures QueriesSent(CallsOf(c) + rest) == QueriesSent(CallsOf(c)) + QueriesSent(rest)
  {
    if c.Some? {
      assert (CallsOf(c) + rest)[1..] == rest;
      assert CallsOf(c)[1..] == [];
    } else {
      assert CallsOf(c) + rest == rest;
    }
  }

  /** No transition rewrites or removes a message: the earlier log is always a prefix of the later one. */
  lemma {:induction false} RunExtendsLog(s: AppState, es: seq<Event>)
    decreases |es|
    ensures s.messages <= Run(s, es).state.messages
  {
    if es != [] {
      RunExtendsLog(Apply(s, es[0]).state, es[1..]);
    }
  }

  /** One transition sends a query only from the idle state, and only a `message` event ends the wait. */
  lemma StepQueryBound(s: AppState, e: Event)
    ensures var t := Apply(s, e);
      QueriesSent(CallsOf(t.call)) + (if t.state.isLoading then 0 else 1)
      <= (if e.MessageReceived? then 1 else 0) + (if s.isLoading then 0 else 1)
  {
    var t := Apply(s, e);
    if t.call.Some? {
      assert CallsOf(t.call)[1..] == [];
    }
  }

  /**
   * Submits never overlap: over any run, the queries sent, plus one if the
   * view ends idle, are at most the answers received, plus one if it
   * started idle.  In particular, without an answer at most one query is sent.
   */
  lemma {:induction false} AtMostOneQueryInFlight(s: AppState, es: seq<Event>)
    decreases |es|
    ensures var r := Run(s, es);
      QueriesSent(r.calls) + (if r.state.isLoading then 0 else 1)
      <= AnswersReceived(es) + (if s.isLoading then 0 else 1)
  {
    if es != [] {
      var t := Apply(s, es[0]);
      StepQueryBound(s, es[0]);
      AtMostOneQueryInFlight(t.state, es[1..]);
      QueriesSentCons(t.call, Run(t.state, es[1..]).calls);
    }
  }

  /** One transition adds a user message per query it sends, an assistant message per answer, a system message per completed upload. */
  lemma StepLogAccounting(s: AppState, e: Event)
    ensures var t := Apply(s, e);
      && CountRole(t.state.messages, User) == CountRole(s.messages, User) + QueriesSent(CallsOf(t.call))
      && CountRole(t.state.messages, Assistant) == CountRole(s.messages, Assistant) + (if e.MessageReceived? then 1 else 0)
      && CountRole(t.state.messages, System) == CountRole(s.messages, System) + (if e.UploadCompleted? then 1 else 0)
  {
    match e
    case Submitted(now, time) =>
      var t := Submit(s, now, time);
      if CanSubmit(s) {
        AppendCounts(s.messages, Message(Text.Decimal(now), s.input, User, time));
        assert QueriesSent(CallsOf(t.call)) == 1;
      } else {
        assert t == Transition(s, None);
      }
    case MessageReceived(content, now, time) =>
      AppendCounts(s.messages, Message(Text.Decimal(now), content, Assistant, time));
    case UploadCompleted(now, time) =>
      AppendCounts(s.messages, Message(Text.Decimal(now), UploadConfirmation, System, time));
    case _ =>
  }

  /** `CountRoleAppend` for each of the three roles. */
  lemma AppendCounts(ms: seq<Message>, m: Message)
    ensures CountRole(ms + [m], User) == CountRole(ms, User) + (if m.role == User then 1 else 0)
    ensures CountRole(ms + [m], Assistant) == CountRole(ms, Assistant) + (if m.role == Assistant then 1 else 0)
    ensures CountRole(ms + [m], System) == CountRole(ms, System) + (if m.role == System then 1 else 0)
  {
    CountRoleAppend(ms, m, User);
    CountRoleAppend(ms, m, Assistant);
    CountRoleAppend(ms, m, System);
  }

  /**
   * Over any run the log grows by one user message per query sent, one
   * assistant message per `message` event and one system message per
   * `upload_complete` event, and by nothing else.
   */
  lemma {:induction false} RunLogAccounting(s: AppState, es: seq<Event>)
    decreases |es|
    ensures var r := Run(s, es);
      && CountRole(r.state.messages, User) == CountRole(s.messages, User) + QueriesSent(r.calls)
      && CountRole(r.state.messages, Assistant) == CountRole(s.messages, Assistant) + AnswersReceived(es)
      && CountRole(r.state.messages, System) == CountRole(s.messages, System) + UploadsCompleted(es)
  {
    if es != [] {
      var t := Apply(s, es[0]);
      StepLogAccounting(s, es[0]);
      RunLogAccounting(t.state, es[1..]);
      QueriesSentCons(t.call, Run(t.state, es[1..]).calls);
    }
  }

  /**
   * Only `upload_complete` clears the upload flag: a run without that event
   * leaves a started upload pending, however long it runs.
   */
  lemma {:induction false} UploadFlagStuckWithoutCompletion(s: AppState, es: seq<Event>)
    decreases |es|
    requires s.isUploading
    requires UploadsCompleted(es) == 0
    ensures Run(s, es).state.isUploading
  {
    if es != [] {
      UploadFlagStuckWithoutCompletion(Apply(s, es[0]).state, es[1..]);
    }
  }
}
