/**
 * The editor's reducer (app/components/Editor/Editor.tsx:89-136): every action
 * rebuilds the state with one field replaced, ADD_RESPONSE_STREAM_DATA appends one
 * response to the stream, and an action of any other type leaves the state as it is.
 */
module EditorReducer {
  import opened Wrappers
  import opened EditorTypes

  /** One constructor per case of the reducer's switch, named after its case label,
      carrying the payload field that case reads; `Unknown` is an action whose type
      matches no case. */
  datatype EditorAction =
    | SetData(data: string)
    | SetUrl(value: string)
    | SetIsLoading(isLoading: bool)
    | SetResponse(response: EditorResponse)
    | SetCall(call: Option<GrpcCall>)
    | SetMetadataVisibility(visible: bool)
    | SetMetadata(metadata: string)
    | SetProtoVisibility(visible: bool)
    | SetInteractive(interactive: bool)
    | SetRequestStreamData(requestData: seq<string>)
    | SetResponseStreamData(responseData: seq<EditorResponse>)
      /** carries one response (the source's `responseData` payload of this case) */
    | AddResponseStreamData(streamItem: EditorResponse)
    | SetStreamCommitted(committed: bool)
    | SetSslCertificate(certificate: Option<Certificate>)
      /** an action whose `type` equals none of the constants the cases above compare
          against; the model does not know those constants, so the string is not
          checked against them */
    | Unknown(actionType: string)
  {
    /** The SET_* actions: those that replace one field with their payload. */
    predicate IsSet()
    {
      !AddResponseStreamData? && !Unknown?
    }

    /** The field a SET_* action replaces. */
    function Target(): Field
      requires IsSet()
    {
      match this
      case SetData(_) => DataField
      case SetUrl(_) => UrlField
      case SetIsLoading(_) => LoadingField
      case SetResponse(_) => ResponseField
      case SetCall(_) => CallField
      case SetMetadataVisibility(_) => MetadataOpenedField
      case SetMetadata(_) => MetadataField
      case SetProtoVisibility(_) => ProtoViewVisibleField
      case SetInteractive(_) => InteractiveField
      case SetRequestStreamData(_) => RequestStreamDataField
      case SetResponseStreamData(_) => ResponseStreamDataField
      case SetStreamCommitted(_) => StreamCommittedField
      case SetSslCertificate(_) => TlsCertificateField
    }

    /** The value a SET_* action writes into its field. */
    function Payload(): FieldValue
      requires IsSet()
    {
      match this
      case SetData(d) => Text(d)
      case SetUrl(u) => Text(u)
      case SetIsLoading(b) => Flag(b)
      case SetResponse(r) => Reply(r)
      case SetCall(c) => CallHandle(c)
      case SetMetadataVisibility(b) => Flag(b)
      case SetMetadata(m) => Text(m)
      case SetProtoVisibility(b) => Flag(b)
      case SetInteractive(b) => Flag(b)
      case SetRequestStreamData(xs) => Texts(xs)
      case SetResponseStreamData(rs) => Replies(rs)
      case SetStreamCommitted(b) => Flag(b)
      case SetSslCertificate(c) => Cert(c)
    }

    /** Whether the action may change field `f`. */
    predicate Touches(f: Field)
    {
      (IsSet() && Target() == f) || (AddResponseStreamData? && f == ResponseStreamDataField)
    }
  }

  /** The reducer: the state after one action. */
  function Reduce(s: EditorState, a: EditorAction): (r: EditorState)
    ensures a.IsSet() ==> Get(r, a.Target()) == a.Payload()
    ensures a.AddResponseStreamData? ==>
      && |r.responseStreamData| == |s.responseStreamData| + 1
      && r.responseStreamData[..|s.responseStreamData|] == s.responseStreamData
      && r.responseStreamData[|s.responseStreamData|] == a.streamItem
  {
    match a
    case SetData(d) => s.(data := d)
    case SetUrl(u) => s.(url := u)
    case SetIsLoading(b) => s.(loading := b)
    case SetResponse(resp) => s.(response := resp)
    case SetCall(c) => s.(call := c)
    case SetMetadataVisibility(b) => s.(metadataOpened := b)
    case SetMetadata(m) => s.(metadata := m)
    case SetProtoVisibility(b) => s.(protoViewVisible := b)
    case SetInteractive(b) => s.(interactive := b)
    case SetRequestStreamData(xs) => s.(requestStreamData := xs)
    case SetResponseStreamData(rs) => s.(responseStreamData := rs)
    case AddResponseStreamData(x) => s.(responseStreamData := s.responseStreamData + [x])
    case SetStreamCommitted(b) => s.(streamCommitted := b)
    case SetSslCertificate(c) => s.(tlsCertificate := c)
    case Unknown(_) => s
  }

  /** The state after a sequence of dispatched actions, applied in order. */
  function Replay(s: EditorState, actions: seq<EditorAction>): (r: EditorState)
    ensures |actions| == 1 ==> r == Reduce(s, actions[0])
    ensures (forall i :: 0 <= i < |actions| ==> actions[i].Unknown?) ==> r == s
    decreases |actions|
  {
    if actions == [] then s else Replay(Reduce(s, actions[0]), actions[1..])
  }

  /** Frame condition of one action: a field the action does not touch keeps its value. */
  lemma ReduceFrame(s: EditorState, a: EditorAction, f: Field)
    requires !a.Touches(f)
    ensures Get(Reduce(s, a), f) == Get(s, f)
  {
  }

  /** Frame condition of a batch: a field no action of the batch touches keeps its value. */
  lemma {:induction false} ReplayFrame(s: EditorState, actions: seq<EditorAction>, f: Field)
    requires forall i :: 0 <= i < |actions| ==> !actions[i].Touches(f)
    ensures Get(Replay(s, actions), f) == Get(s, f)
    decreases |actions|
  {
    if actions != [] {
      ReduceFrame(s, actions[0], f);
      ReplayFrame(Reduce(s, actions[0]), actions[1..], f);
    }
  }

  /** A SET_* action replaces its own field with its payload and nothing else: its
      result is the one state that has the payload in that field and agrees with the
      old state everywhere else. */
  lemma SetReplacesExactlyItsField(s: EditorState, a: EditorAction, t: EditorState)
    requires a.IsSet()
    requires Get(t, a.Target()) == a.Payload()
    requires forall f :: f != a.Target() ==> Get(t, f) == Get(s, f)
    ensures t == Reduce(s, a)
  {
    var r := Reduce(s, a);
    forall f ensures Get(t, f) == Get(r, f) {
      GetAfterSet(s, a, f);
    }
    FieldsDetermineState(t, r);
  }

  /** ADD_RESPONSE_STREAM_DATA grows the response stream by one, keeps what was there
      as a prefix, puts the payload last, and changes no other field. */
  lemma AddAppendsOneResponse(s: EditorState, x: EditorResponse)
    ensures var r := Reduce(s, AddResponseStreamData(x));
      && |r.responseStreamData| == |s.responseStreamData| + 1
      && r.responseStreamData[..|s.responseStreamData|] == s.responseStreamData
      && r.responseStreamData[|s.responseStreamData|] == x
      && forall f :: f != ResponseStreamDataField ==> Get(r, f) == Get(s, f)
  {
    var r := Reduce(s, AddResponseStreamData(x));
    forall f | f != ResponseStreamDataField ensures Get(r, f) == Get(s, f) {
      ReduceFrame(s, AddResponseStreamData(x), f);
    }
  }

  /** An action whose type matches no case returns the state unchanged. */
  lemma UnknownActionIsIdentity(s: EditorState, t: string)
    ensures Reduce(s, Unknown(t)) == s
  {
    forall f ensures Get(Reduce(s, Unknown(t)), f) == Get(s, f) {
      ReduceFrame(s, Unknown(t), f);
    }
    FieldsDetermineState(Reduce(s, Unknown(t)), s);
  }

  /** Field by field, the second of two SET_* actions on the same field overwrites the first. */
  lemma LastSetWinsAt(s: EditorState, a: EditorAction, b: EditorAction, f: Field)
    requires a.IsSet() && b.IsSet() && a.Target() == b.Target()
    ensures Get(Reduce(Reduce(s, a), b), f) == Get(Reduce(s, b), f)
  {
    GetAfterSet(s, a, f);
    GetAfterSet(Reduce(s, a), b, f);
    GetAfterSet(s, b, f);
  }

  /** Two SET_* actions on the same field: the second overwrites the first. */
  lemma LastSetWins(s: EditorState, a: EditorAction, b: EditorAction)
    requires a.IsSet() && b.IsSet() && a.Target() == b.Target()
    ensures Reduce(Reduce(s, a), b) == Reduce(s, b)
  {
    forall f ensures Get(Reduce(Reduce(s, a), b), f) == Get(Reduce(s, b), f) {
      LastSetWinsAt(s, a, b, f);
    }
    FieldsDetermineState(Reduce(Reduce(s, a), b), Reduce(s, b));
  }

  /** Every SET_* action is idempotent. */
  lemma SetIsIdempotent(s: EditorState, a: EditorAction)
    requires a.IsSet()
    ensures Reduce(Reduce(s, a), a) == Reduce(s, a)
  {
    LastSetWins(s, a, a);
  }

  /** Reading a field after a SET_* action: its payload if it is the action's own
      field, the old value otherwise. */
  lemma GetAfterSet(s: EditorState, a: EditorAction, f: Field)
    requires a.IsSet()
    ensures Get(Reduce(s, a), f) == if f == a.Target() then a.Payload() else Get(s, f)
  {
    if f != a.Target() {
      ReduceFrame(s, a, f);
    }
  }

  /** Field by field, SET_* actions on different fields commute. */
  lemma SetsCommuteAt(s: EditorState, a: EditorAction, b: EditorAction, f: Field)
    requires a.IsSet() && b.IsSet() && a.Target() != b.Target()
    ensures Get(Reduce(Reduce(s, a), b), f) == Get(Reduce(Reduce(s, b), a), f)
  {
    GetAfterSet(s, a, f);
    GetAfterSet(s, b, f);
    GetAfterSet(Reduce(s, a), b, f);
    GetAfterSet(Reduce(s, b), a, f);
  }

  /** SET_* actions on different fields commute. */
  lemma SetsOnDistinctFieldsCommute(s: EditorState, a: EditorAction, b: EditorAction)
    requires a.IsSet() && b.IsSet() && a.Target() != b.Target()
    ensures Reduce(Reduce(s, a), b) == Reduce(Reduce(s, b), a)
  {
    forall f ensures Get(Reduce(Reduce(s, a), b), f) == Get(Reduce(Reduce(s, b), a), f) {
      SetsCommuteAt(s, a, b, f);
    }
    FieldsDetermineState(Reduce(Reduce(s, a), b), Reduce(Reduce(s, b), a));
  }

  /** SET_RESPONSE_STREAM_DATA(xs) then ADD_RESPONSE_STREAM_DATA(x) leaves xs + [x]. */
  lemma SetThenAddResponse(s: EditorState, xs: seq<EditorResponse>, x: EditorResponse)
    ensures Reduce(Reduce(s, SetResponseStreamData(xs)), AddResponseStreamData(x)).responseStreamData == xs + [x]
  {
  }

  /** Replaying a non-empty batch is reducing its first action, then replaying the rest. */
  lemma ReplayCons(s: EditorState, a: EditorAction, rest: seq<EditorAction>)
    ensures Replay(s, [a] + rest) == Replay(Reduce(s, a), rest)
  {
    assert ([a] + rest)[1..] == rest;
  }

  /** Dispatching one batch of actions and then another is dispatching them together. */
  lemma {:induction false} ReplayAppend(s: EditorState, xs: seq<EditorAction>, ys: seq<EditorAction>)
    ensures Replay(s, xs + ys) == Replay(Replay(s, xs), ys)
    decreases |xs|
  {
    if xs == [] {
      assert xs + ys == ys;
    } else {
      assert (xs + ys)[1..] == xs[1..] + ys;
      ReplayAppend(Reduce(s, xs[0]), xs[1..], ys);
    }
  }

  /** One ADD_RESPONSE_STREAM_DATA action per response, in order: how a server stream
      is delivered to the editor. */
  function AddAll(xs: seq<EditorResponse>): seq<EditorAction>
  {
    if xs == [] then [] else [AddResponseStreamData(xs[0])] + AddAll(xs[1..])
  }

  /** Delivering a stream of responses appends them, in order, to the response stream. */
  lemma {:induction false} ReplayAddAll(s: EditorState, xs: seq<EditorResponse>)
    ensures Replay(s, AddAll(xs)).responseStreamData == s.responseStreamData + xs
    decreases |xs|
  {
    if xs == [] {
      assert s.responseStreamData + xs == s.responseStreamData;
    } else {
      var s' := Reduce(s, AddResponseStreamData(xs[0]));
      calc {
        Replay(s, AddAll(xs)).responseStreamData;
      == { ReplayCons(s, AddResponseStreamData(xs[0]), AddAll(xs[1..])); }
        Replay(s', AddAll(xs[1..])).responseStreamData;
      == { ReplayAddAll(s', xs[1..]); }
        s'.responseStreamData + xs[1..];
      == { assert xs == [xs[0]] + xs[1..]; }
        s.responseStreamData + xs;
      }
    }
  }

  /** Delivering a stream of responses changes no field but the response stream. */
  lemma {:induction false} AddAllKeepsOtherFields(s: EditorState, xs: seq<EditorResponse>, f: Field)
    requires f != ResponseStreamDataField
    ensures Get(Replay(s, AddAll(xs)), f) == Get(s, f)
    decreases |xs|
  {
    if xs != [] {
      var s' := Reduce(s, AddResponseStreamData(xs[0]));
      ReplayCons(s, AddResponseStreamData(xs[0]), AddAll(xs[1..]));
      ReduceFrame(s, AddResponseStreamData(xs[0]), f);
      AddAllKeepsOtherFields(s', xs[1..], f);
    }
  }

  /** Without a SET_RESPONSE_STREAM_DATA among them, actions can only extend the
      response stream: what was received stays a prefix of what is shown. */
  lemma {:induction false} StreamGrowsWithoutReset(s: EditorState, actions: seq<EditorAction>)
    requires forall i :: 0 <= i < |actions| ==> !actions[i].SetResponseStreamData?
    ensures s.responseStreamData <= Replay(s, actions).responseStreamData
    decreases |actions|
  {
    if actions != [] {
      var s' := Reduce(s, actions[0]);
      if !actions[0].Touches(ResponseStreamDataField) {
        ReduceFrame(s, actions[0], ResponseStreamDataField);
      }
      StreamGrowsWithoutReset(s', actions[1..]);
    }
  }
}
