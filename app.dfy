/**
 * The chat view component: its six state fields and the handlers that
 * update them in place.  Every handler leaves the fields exactly as the
 * matching transition of `ChatState` says and returns the call it makes
 * into the transport, so that whatever is proved about `ChatState` runs
 * holds of any sequence of handler calls.
 */
module AppComponent {
  import opened Wire
  import opened ChatState
  import Text

  class App {
    var messages: seq<Message>
    var input: string
    var isLoading: bool
    var documents: seq<Document>
    var showDocuments: bool
    var isUploading: bool

    /** The component state as a value. */
    function State(): AppState
      reads this
    {
      AppState(messages, input, isLoading, documents, showDocuments, isUploading)
    }

    /** Mounting: one greeting from the assistant, idle, no documents, panel shown. */
    constructor (time: int)
      ensures State() == Initial(time)
    {
      messages := [Message(GreetingId, Greeting, Assistant, time)];
      input := "";
      isLoading := false;
      documents := [];
      showDocuments := true;
      isUploading := false;
    }

    /** The text box's `onChange`. */
    method SetInput(value: string)
      modifies this
      ensures State() == EditInput(old(State()), value)
    {
      input := value;
    }

    /** `handleSubmit`: guarded by blank input and by a query in flight. */
    method HandleSubmit(now: nat, time: int) returns (call: Option<Call>)
      modifies this
      ensures Transition(State(), call) == Submit(old(State()), now, time)
      ensures call.Some? <==> CanSubmit(old(State()))
      ensures old(messages) <= messages
    {
      SubmitGuardIsTrim(State());
      if Text.Trim(input) == [] || isLoading {
        return None;
      }
      var text := input;
      messages := messages + [Message(Text.Decimal(now), text, User, time)];
      input := "";
      isLoading := true;
      call := Some(Send(QueryChannel, QueryText(text)));
    }

    /** `handleFileUpload`: a missing or empty selection does nothing. */
    method HandleFileUpload(files: Option<seq<File>>) returns (call: Option<Call>)
      modifies this
      ensures Transition(State(), call) == SelectFiles(old(State()), files)
    {
      if files == None || |files.value| == 0 {
        return None;
      }
      isUploading := true;
      call := Some(UploadFiles(files.value));
    }

    /** The handler registered for `message`. */
    method OnMessage(content: string, now: nat, time: int)
      modifies this
      ensures State() == ReceiveMessage(old(State()), content, now, time)
      ensures old(messages) <= messages && !isLoading
    {
      messages := messages + [Message(Text.Decimal(now), content, Assistant, time)];
      isLoading := false;
    }

    /** The handler registered for `documents`. */
    method OnDocuments(docs: seq<Document>)
      modifies this
      ensures State() == ReceiveDocuments(old(State()), docs)
    {
      documents := docs;
    }

    /** The handler registered for `upload_complete`. */
    method OnUploadComplete(now: nat, time: int)
      modifies this
      ensures State() == ReceiveUploadComplete(old(State()), now, time)
      ensures old(messages) <= messages && !isUploading
    {
      isUploading := false;
      messages := messages + [Message(Text.Decimal(now), UploadConfirmation, System, time)];
    }

    /** The document panel's `onToggle`. */
    method ToggleDocuments()
      modifies this
      ensures State() == ChatState.ToggleDocuments(old(State()))
    {
      showDocuments := !showDocuments;
    }
  }
}
