/**
 * The records of the editor pane (app/components/Editor/Editor.tsx): the request it
 * edits, the response it shows and the whole view state the reducer rebuilds.
 */
module EditorTypes {
  import opened Wrappers

  /** A TLS certificate chosen by the user. It comes from the behaviour module, which is
      not part of this model; the editor only stores it and hands it back, so a handle
      stands for it. */
  datatype Certificate = Certificate(handle: nat)

  /** A running gRPC call (`GRPCRequest` of the behaviour module), also only stored. */
  datatype GrpcCall = GrpcCall(handle: nat)

  /** What the response pane shows. `responseTime` is a JavaScript number that the
      editor only copies, so it is kept as an optional real and never computed on. */
  datatype EditorResponse = EditorResponse(output: string, responseTime: Option<real>)

  /** A saved request the editor can be opened with. `inputs` is the deprecated name
      of `data` found in older saved requests. */
  datatype EditorRequest = EditorRequest(
    url: string,
    data: string,
    inputs: Option<string>,
    metadata: string,
    interactive: bool,
    tlsCertificate: Option<Certificate>)

  /** The reducer's state. The deprecated `inputs` field that the state type inherits
      from the request is never given a value in the state, so it is not a field here. */
  datatype EditorState = EditorState(
    url: string,
    data: string,
    metadata: string,
    interactive: bool,
    tlsCertificate: Option<Certificate>,
    loading: bool,
    response: EditorResponse,
    metadataOpened: bool,
    protoViewVisible: bool,
    requestStreamData: seq<string>,
    responseStreamData: seq<EditorResponse>,
    streamCommitted: bool,
    call: Option<GrpcCall>)

  /** The names of the state's fields, so that "this field changed and no other"
      can be said of any state change. */
  datatype Field =
    | UrlField | DataField | MetadataField | InteractiveField | TlsCertificateField
    | LoadingField | ResponseField | MetadataOpenedField | ProtoViewVisibleField
    | RequestStreamDataField | ResponseStreamDataField | StreamCommittedField | CallField

  /** The value held by one field, tagged by its type. */
  datatype FieldValue =
    | Text(text: string)
    | Flag(flag: bool)
    | Reply(reply: EditorResponse)
    | Texts(texts: seq<string>)
    | Replies(replies: seq<EditorResponse>)
    | Cert(cert: Option<Certificate>)
    | CallHandle(callHandle: Option<GrpcCall>)

  /** Reads one field of a state. */
  function Get(s: EditorState, f: Field): FieldValue
  {
    match f
    case UrlField => Text(s.url)
    case DataField => Text(s.data)
    case MetadataField => Text(s.metadata)
    case InteractiveField => Flag(s.interactive)
    case TlsCertificateField => Cert(s.tlsCertificate)
    case LoadingField => Flag(s.loading)
    case ResponseField => Reply(s.response)
    case MetadataOpenedField => Flag(s.metadataOpened)
    case ProtoViewVisibleField => Flag(s.protoViewVisible)
    case RequestStreamDataField => Texts(s.requestStreamData)
    case ResponseStreamDataField => Replies(s.responseStreamData)
    case StreamCommittedField => Flag(s.streamCommitted)
    case CallField => CallHandle(s.call)
  }

  /** The fields are the whole state: two states that agree on every field are equal.
      This is what lets a field-by-field frame condition pin a state down. */
  lemma FieldsDetermineState(s: EditorState, t: EditorState)
    requires forall f :: Get(s, f) == Get(t, f)
    ensures s == t
  {
    assert Get(s, UrlField) == Get(t, UrlField);
    assert Get(s, DataField) == Get(t, DataField);
    assert Get(s, MetadataField) == Get(t, MetadataField);
    assert Get(s, InteractiveField) == Get(t, InteractiveField);
    assert Get(s, TlsCertificateField) == Get(t, TlsCertificateField);
    assert Get(s, LoadingField) == Get(t, LoadingField);
    assert Get(s, ResponseField) == Get(t, ResponseField);
    assert Get(s, MetadataOpenedField) == Get(t, MetadataOpenedField);
    assert Get(s, ProtoViewVisibleField) == Get(t, ProtoViewVisibleField);
    assert Get(s, RequestStreamDataField) == Get(t, RequestStreamDataField);
    assert Get(s, ResponseStreamDataField) == Get(t, ResponseStreamDataField);
    assert Get(s, StreamCommittedField) == Get(t, StreamCommittedField);
    assert Get(s, CallField) == Get(t, CallField);
  }
}
