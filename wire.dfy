/**
 * Records shared by the chat view and its two transport clients: chat
 * messages, retrieved document pages, local files, the payloads carried on
 * each named channel and the `{type, data}` frame.  JSON text is not
 * modelled: a frame is a record, a payload one of the shapes the program
 * actually puts on a channel.
 */
module Wire {

  datatype Option<T> = None | Some(value: T)

  // Channel names used by the view and the transports.
  const QueryChannel: string := "query"
  const UploadChannel: string := "upload"
  const MessageChannel: string := "message"
  const DocumentsChannel: string := "documents"
  const UploadCompleteChannel: string := "upload_complete"

  /** The three roles the chat view gives its messages. */
  datatype Role = User | Assistant | System

  /** A chat message; `timestamp` is the wall-clock reading, in milliseconds. */
  datatype Message = Message(id: string, content: string, role: Role, timestamp: int)

  /** A retrieved page; `score` is the backend's relevance score. */
  datatype Document = Document(id: string, pageNumber: int, imageUrl: string, score: real, pdfUrl: string)

  /** A local file the user picked. */
  datatype File = File(name: string, bytes: seq<bv8>)

  /** One `append(key, file)` entry of a multipart form. */
  datatype FormEntry = FormEntry(key: string, file: File)

  /** The payload shapes that travel on the channels. */
  datatype Payload =
    | QueryText(text: string)          // { text }             client -> server, "query"
    | Form(entries: seq<FormEntry>)    // a FormData           client -> server, "upload" (real socket)
    | FileNames(files: seq<string>)    // { files: names }     client -> server, "upload" (simulator)
    | Content(content: string)         // { content }          server -> client, "message"
    | Docs(docs: seq<Document>)        // Document[]           server -> client, "documents"
    | EmptyObject                      // {}                   server -> client, "upload_complete"

  /** An inbound or outbound frame `{type, data}`. */
  datatype Frame = Frame(channel: string, data: Payload)

  /** One call of the handler `handler` with argument `data`. */
  datatype Delivery<H> = Delivery(handler: H, data: Payload)
}
