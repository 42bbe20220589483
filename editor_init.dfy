/**
 * How the editor pane builds its first state (app/components/Editor/Editor.tsx:65-82,
 * 138-144) and what its mount effect dispatches (146-164). The storage lookups
 * `getUrl()` and `getMetadata()`, `protoInfo.usesStream()` and the mock-request
 * generator are collaborators that are not part of this model; they enter as parameters.
 */
module EditorInit {
  import opened Wrappers
  import opened EditorTypes
  import opened EditorReducer

  /** The server address used when neither the saved request nor the storage has one. */
  const DefaultUrl: string := "0.0.0.0:3009"

  /** INITIAL_STATE: the defaults every editor starts from. */
  const InitialDefaults: EditorState := EditorState(
    url := DefaultUrl,
    data := "",
    metadata := "",
    interactive := false,
    tlsCertificate := None,
    loading := false,
    response := EditorResponse("", None),
    metadataOpened := false,
    protoViewVisible := false,
    requestStreamData := [],
    responseStreamData := [],
    streamCommitted := false,
    call := None)

  /** The proto information of the selected method; `usesStream` is the answer of its
      `usesStream()`, the only thing the editor asks of it while starting up. */
  datatype ProtoInfo = ProtoInfo(usesStream: bool)

  /** JavaScript truthiness of a value that is a string or undefined. */
  predicate Truthy(v: Option<string>)
  {
    v.Some? && v.value != ""
  }

  /** `c0 || c1 || ... || fallback` over values that are strings or undefined: the first
      truthy candidate, or the fallback when there is none. */
  function FirstTruthy(candidates: seq<Option<string>>, fallback: string): (r: string)
    ensures (forall i :: 0 <= i < |candidates| ==> !Truthy(candidates[i])) ==> r == fallback
    ensures forall i :: (0 <= i < |candidates| && Truthy(candidates[i]) && (forall j :: 0 <= j < i ==> !Truthy(candidates[j])))
                        ==> r == candidates[i].value
    ensures fallback != "" ==> r != ""
    decreases |candidates|
  {
    if candidates == [] then fallback
    else if Truthy(candidates[0]) then candidates[0].value
    else FirstTruthy(candidates[1..], fallback)
  }

  /** A chain of two candidates: `a || b || fallback`. */
  lemma FirstTruthyOfTwo(a: Option<string>, b: Option<string>, fallback: string)
    ensures FirstTruthy([a, b], fallback) == if Truthy(a) then a.value else if Truthy(b) then b.value else fallback
  {
    assert [a, b][1..] == [b];
    assert [b][1..] == [];
  }

  /** `initialRequest && initialRequest.<field>`: undefined without a saved request. */
  function FromRequest(initialRequest: Option<EditorRequest>, read: EditorRequest -> string): Option<string>
  {
    match initialRequest
    case Some(req) => Some(read(req))
    case None => None
  }

  /** The state handed to `useReducer`: INITIAL_STATE with `url`, `interactive` and
      `metadata` taken from the saved request, else from storage, else the default. */
  function InitialState(initialRequest: Option<EditorRequest>, protoInfo: Option<ProtoInfo>,
                        storedUrl: Option<string>, storedMetadata: Option<string>): (s: EditorState)
    ensures s.url != ""
    ensures initialRequest.Some? && initialRequest.value.url != "" ==> s.url == initialRequest.value.url
    ensures (initialRequest.None? || initialRequest.value.url == "") && Truthy(storedUrl) ==> s.url == storedUrl.value
    ensures (initialRequest.None? || initialRequest.value.url == "") && !Truthy(storedUrl) ==> s.url == DefaultUrl
    ensures initialRequest.Some? && initialRequest.value.metadata != "" ==> s.metadata == initialRequest.value.metadata
    ensures (initialRequest.None? || initialRequest.value.metadata == "") && Truthy(storedMetadata) ==> s.metadata == storedMetadata.value
    ensures (initialRequest.None? || initialRequest.value.metadata == "") && !Truthy(storedMetadata) ==> s.metadata == ""
    ensures initialRequest.Some? ==> s.interactive == initialRequest.value.interactive
    ensures initialRequest.None? ==> s.interactive == (protoInfo.Some? && protoInfo.value.usesStream)
    ensures s.data == "" && !s.loading && s.response == EditorResponse("", None)
    ensures !s.metadataOpened && !s.protoViewVisible && !s.streamCommitted
    ensures s.requestStreamData == [] && s.responseStreamData == []
    ensures s.tlsCertificate == None && s.call == None
  {
    FirstTruthyOfTwo(FromRequest(initialRequest, (req: EditorRequest) => req.url), storedUrl, InitialDefaults.url);
    FirstTruthyOfTwo(FromRequest(initialRequest, (req: EditorRequest) => req.metadata), storedMetadata, InitialDefaults.metadata);
    InitialDefaults.(
      url := FirstTruthy([FromRequest(initialRequest, (req: EditorRequest) => req.url), storedUrl], InitialDefaults.url),
      interactive :=
        match initialRequest
        case Some(req) => req.interactive
        case None => (protoInfo.Some? && protoInfo.value.usesStream) || InitialDefaults.interactive,
      metadata := FirstTruthy([FromRequest(initialRequest, (req: EditorRequest) => req.metadata), storedMetadata], InitialDefaults.metadata))
  }

  /** The text the mount effect puts in the request body when the mock generator throws:
      the error object serialised with a two-space indent. */
  const MockErrorJson: string :=
    "{\n  \"error\": \"Error parsing the request message, please report the problem sharing the offending protofile\"\n}"

  /** `initialRequest.inputs || initialRequest.data`: the request body of a saved request,
      preferring the deprecated `inputs` when it holds text. */
  function LoadedData(req: EditorRequest): (d: string)
    ensures Truthy(req.inputs) ==> d == req.inputs.value
    ensures !Truthy(req.inputs) ==> d == req.data
  {
    FirstTruthy([req.inputs], req.data)
  }

  /** The actions the mount effect dispatches, in order. `mock` is the serialised mock
      request of the selected method, or None when generating it threw. */
  function MountActions(initialRequest: Option<EditorRequest>, protoInfo: Option<ProtoInfo>,
                        mock: Option<string>): (actions: seq<EditorAction>)
    ensures forall i :: 0 <= i < |actions| ==> actions[i].IsSet()
    ensures forall i :: 0 <= i < |actions| ==>
      actions[i].Target() == DataField || actions[i].Target() == MetadataField || actions[i].Target() == TlsCertificateField
    ensures initialRequest.None? && protoInfo.None? ==> actions == []
  {
    var fromProto :=
      if protoInfo.Some? && initialRequest.None? then
        [SetData(if mock.Some? then mock.value else MockErrorJson)]
      else [];
    var fromRequest :=
      match initialRequest
      case Some(req) => [SetData(LoadedData(req)), SetMetadata(req.metadata), SetSslCertificate(req.tlsCertificate)]
      case None => [];
    fromProto + fromRequest
  }

  /** The state once the mount effect's actions have been reduced. */
  function MountedState(initialRequest: Option<EditorRequest>, protoInfo: Option<ProtoInfo>,
                        storedUrl: Option<string>, storedMetadata: Option<string>, mock: Option<string>): (m: EditorState)
    ensures initialRequest.None? && protoInfo.None? ==> m == InitialState(initialRequest, protoInfo, storedUrl, storedMetadata)
  {
    Replay(InitialState(initialRequest, protoInfo, storedUrl, storedMetadata), MountActions(initialRequest, protoInfo, mock))
  }

  /** The mount effect changes only the request body, the metadata and the certificate. */
  lemma MountKeepsOtherFields(initialRequest: Option<EditorRequest>, protoInfo: Option<ProtoInfo>,
                              storedUrl: Option<string>, storedMetadata: Option<string>, mock: Option<string>, f: Field)
    requires f != DataField && f != MetadataField && f != TlsCertificateField
    ensures Get(MountedState(initialRequest, protoInfo, storedUrl, storedMetadata, mock), f)
         == Get(InitialState(initialRequest, protoInfo, storedUrl, storedMetadata), f)
  {
    var actions := MountActions(initialRequest, protoInfo, mock);
    assert forall i :: 0 <= i < |actions| ==> !actions[i].Touches(f);
    ReplayFrame(InitialState(initialRequest, protoInfo, storedUrl, storedMetadata), actions, f);
  }

  /** With a saved request, the editor ends up showing its body (`inputs` first), its
      metadata (even when empty, replacing the stored fallback) and its certificate. */
  lemma MountLoadsSavedRequest(req: EditorRequest, protoInfo: Option<ProtoInfo>,
                               storedUrl: Option<string>, storedMetadata: Option<string>, mock: Option<string>)
    ensures var m := MountedState(Some(req), protoInfo, storedUrl, storedMetadata, mock);
      && m.data == (if Truthy(req.inputs) then req.inputs.value else req.data)
      && m.metadata == req.metadata
      && m.tlsCertificate == req.tlsCertificate
  {
    var s0 := InitialState(Some(req), protoInfo, storedUrl, storedMetadata);
    var a0, a1, a2 := SetData(LoadedData(req)), SetMetadata(req.metadata), SetSslCertificate(req.tlsCertificate);
    assert MountActions(Some(req), protoInfo, mock) == [a0] + ([a1] + ([a2] + []));
    ReplayCons(s0, a0, [a1] + ([a2] + []));
    ReplayCons(Reduce(s0, a0), a1, [a2] + []);
    ReplayCons(Reduce(Reduce(s0, a0), a1), a2, []);
  }

  /** Without a saved request but with a method selected, the request body is the
      generated mock, or the error text when generating it threw. */
  lemma MountLoadsMock(protoInfo: ProtoInfo, storedUrl: Option<string>, storedMetadata: Option<string>, mock: Option<string>)
    ensures var m := MountedState(None, Some(protoInfo), storedUrl, storedMetadata, mock);
      && m.data == (if mock.Some? then mock.value else MockErrorJson)
      && m.metadata == InitialState(None, Some(protoInfo), storedUrl, storedMetadata).metadata
      && m.tlsCertificate == None
  {
    var s0 := InitialState(None, Some(protoInfo), storedUrl, storedMetadata);
    var a0 := SetData(if mock.Some? then mock.value else MockErrorJson);
    assert MountActions(None, Some(protoInfo), mock) == [a0] + [];
    ReplayCons(s0, a0, []);
  }
}
