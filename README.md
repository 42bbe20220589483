# Editor pane state model (BloomRPC)

A Dafny model of the state handling of BloomRPC's request editor pane
(`app/components/Editor/Editor.tsx`). BloomRPC is a desktop gRPC client. Each editor tab
keeps its view state in a React reducer. That state holds the server URL, the request
body, the metadata, the interactive (streaming) switch, the chosen TLS certificate, the
loading flag, the last response, the panel visibility flags, the request and response
stream buffers, the stream-committed flag and the running call.

The model has four modules:

- `Wrappers` (`wrappers.dfy`): `Option`, which stands for JavaScript's `undefined`.
- `EditorTypes` (`editor_types.dfy`): the records `EditorRequest`, `EditorResponse` and
  `EditorState`. It also gives a field-level view of a state (`Field`, `FieldValue`,
  `Get`), so that "this field changed and no other" can be stated. `FieldsDetermineState`
  proves that this view is complete.
- `EditorReducer` (`editor_reducer.dfy`): one `EditorAction` constructor per case of the
  reducer's `switch`, plus `Unknown` for an action of any other type. `Reduce` is the
  reducer. `Replay` applies dispatched actions in order, as `useReducer` does. The
  lemmas give the frame condition of every action and the algebra of the `SET_*` actions
  (overwrite, idempotence, commutation on distinct fields). They also cover the response
  stream (`ADD_RESPONSE_STREAM_DATA` appends; without a reset the stream only grows).
- `EditorInit` (`editor_init.dfy`): `INITIAL_STATE` and the three `||` / `?:` fallback
  chains of the state handed to `useReducer`. It also models the actions the mount
  effect dispatches and the state after them.

Modelling choices:

- JavaScript `||` over values that are strings or `undefined` is `FirstTruthy`: the
  first candidate that is defined and non-empty, else the fallback.
- `getUrl()` and `getMetadata()` read persistent storage. They become the parameters
  `storedUrl` and `storedMetadata`, of type `Option<string>`.
- `protoInfo.usesStream()` is the field `ProtoInfo.usesStream`. The selected method's
  mock request, already serialised, is the parameter `mock`; `None` means generating it
  threw.
- `Certificate` and `GRPCRequest` objects are only stored and handed back, so a handle
  stands for each. `responseTime` is an optional real that is never computed on.
- The state type inherits the deprecated `inputs` field from the request type. No
  reducer case and no part of `INITIAL_STATE` ever gives it a value, so it is not a
  field of `EditorState`.
- The action creators live in `app/components/Editor/actions`, which is not part of this
  model. Each is taken to build the action type together with the payload field that the
  reducer case reads (for `setTSLCertificate`, `certificate`).

One consequence of the code is made explicit. When a saved request is present, the
initial state takes its metadata from the request, or from storage when the request's
metadata is empty. The mount effect then dispatches `setMetadata(initialRequest.metadata)`,
so after mounting the editor shows the request's metadata even when it is empty
(`MountLoadsSavedRequest`). The storage fallback for metadata therefore only lasts when
there is no saved request.

## Model

| member | source | states |
|---|---|---|
| `EditorTypes.FieldsDetermineState` | app/components/Editor/Editor.tsx:43-52 | the thirteen fields are the whole editor state: two states equal on every field are equal |
| `EditorReducer.Reduce` | app/components/Editor/Editor.tsx:89-136 | a `SET_*` action leaves its payload in its own field, as read through the separate field table; `ADD_RESPONSE_STREAM_DATA` makes the stream one longer, with the old stream as its prefix and the payload last |
| `EditorReducer.ReduceFrame` | app/components/Editor/Editor.tsx:89-136 | every field an action does not touch keeps its value, and an unknown action touches nothing |
| `EditorReducer.GetAfterSet` | app/components/Editor/Editor.tsx:92-132 | after a `SET_*` action a field reads as the payload if it is the action's field, and as before otherwise |
| `EditorReducer.SetReplacesExactlyItsField` | app/components/Editor/Editor.tsx:92-132 | the result of a `SET_*` action is the unique state with the payload in its field that agrees with the old state on every other field |
| `EditorReducer.AddAppendsOneResponse` | app/components/Editor/Editor.tsx:125-126 | `ADD_RESPONSE_STREAM_DATA` makes the stream one longer, keeps the old stream as a prefix, puts the payload last and changes no other field |
| `EditorReducer.UnknownActionIsIdentity` | app/components/Editor/Editor.tsx:133-134 | an action whose type matches no case returns the state unchanged |
| `EditorReducer.LastSetWinsAt` | app/components/Editor/Editor.tsx:92-132 | field by field, of two `SET_*` actions on one field the second one's value is the one read |
| `EditorReducer.LastSetWins` | app/components/Editor/Editor.tsx:92-132 | two `SET_*` actions on the same field give the same state as the second one alone |
| `EditorReducer.SetIsIdempotent` | app/components/Editor/Editor.tsx:92-132 | applying a `SET_*` action twice gives the same state as applying it once |
| `EditorReducer.SetsCommuteAt` | app/components/Editor/Editor.tsx:92-132 | field by field, `SET_*` actions on different fields can be applied in either order |
| `EditorReducer.SetsOnDistinctFieldsCommute` | app/components/Editor/Editor.tsx:92-132 | `SET_*` actions on different fields commute |
| `EditorReducer.SetThenAddResponse` | app/components/Editor/Editor.tsx:122-126 | `SET_RESPONSE_STREAM_DATA(xs)` then `ADD_RESPONSE_STREAM_DATA(x)` leaves the stream `xs + [x]` |
| `EditorReducer.Replay` | app/components/Editor/Editor.tsx:139-144 | `useReducer` applying dispatched actions in order: one dispatched action is one reducer step, and a batch of actions of unknown type leaves the state unchanged; `ReplayAppend`, `ReplayFrame` and `StreamGrowsWithoutReset` give its other properties |
| `EditorReducer.ReplayFrame` | app/components/Editor/Editor.tsx:89-136 | a field that no action of a batch touches keeps its value through the whole batch |
| `EditorReducer.ReplayAppend` | app/components/Editor/Editor.tsx:139-144 | dispatching two batches one after the other is dispatching their concatenation |
| `EditorReducer.ReplayAddAll` | app/components/Editor/Editor.tsx:125-126 | delivering responses one `ADD_RESPONSE_STREAM_DATA` at a time appends all of them, in order |
| `EditorReducer.AddAllKeepsOtherFields` | app/components/Editor/Editor.tsx:125-126 | delivering a stream of responses changes no field but the response stream |
| `EditorReducer.StreamGrowsWithoutReset` | app/components/Editor/Editor.tsx:119-126 | without a `SET_RESPONSE_STREAM_DATA` in a batch, the old response stream stays a prefix of the new one |
| `EditorInit.FirstTruthy` | app/components/Editor/Editor.tsx:141-143 | a JavaScript or-chain of candidates and a fallback: the first defined non-empty candidate, the fallback when there is none, and never empty when the fallback is not |
| `EditorInit.FirstTruthyOfTwo` | app/components/Editor/Editor.tsx:141-143 | a chain of two candidates is the first candidate if truthy, else the second if truthy, else the fallback |
| `EditorInit.InitialDefaults` | app/components/Editor/Editor.tsx:65-82 | `INITIAL_STATE`; what it means for the editor is stated by the `ensures` of `InitialState`, which fix every field not overridden by a fallback chain to its value here |
| `EditorInit.InitialState` | app/components/Editor/Editor.tsx:65-144 | `url` is the first non-empty of the request's url, the stored url and `0.0.0.0:3009`, so it is never empty; `metadata` likewise with `""`; `interactive` is the request's flag when a request is given (even false), else `usesStream` of the proto, else false; every other field has its `INITIAL_STATE` value |
| `EditorInit.LoadedData` | app/components/Editor/Editor.tsx:160 | the loaded request body is `inputs` when it holds text, otherwise `data` |
| `EditorInit.MountActions` | app/components/Editor/Editor.tsx:146-164 | the mount effect dispatches only `SET_DATA`, `SET_METADATA` and `SET_SSL_CERTIFICATE`, and nothing without a saved request or a proto |
| `EditorInit.MountedState` | app/components/Editor/Editor.tsx:146-164 | the state once the mount effect's actions are reduced; with neither a saved request nor a proto it is the initial state. `MountLoadsSavedRequest`, `MountLoadsMock` and `MountKeepsOtherFields` give the other cases |
| `EditorInit.MountKeepsOtherFields` | app/components/Editor/Editor.tsx:146-164 | mounting changes no field but the request body, the metadata and the certificate |
| `EditorInit.MountLoadsSavedRequest` | app/components/Editor/Editor.tsx:159-163 | with a saved request the mounted editor shows its body (`inputs` first), its metadata (even when empty) and its certificate |
| `EditorInit.MountLoadsMock` | app/components/Editor/Editor.tsx:147-157 | with a proto and no saved request the body becomes the generated mock, or the error text when generation threw, and metadata and certificate stay as initialised |

## Left out

- Rendering: the JSX tree, the antd `Input`/`Icon`, `Resizable` and the `styles` object. They lay out the UI and state no behaviour.
- `storeUrl` and the `getUrl`/`getMetadata` storage implementations. This is persistence I/O; the stored values enter as parameters.
- `exportResponseToJSONFile`. It is asynchronous file I/O in the behaviour module, which is not part of this model.
- How the mock request is generated (`methodsMocks`) and serialised with `JSON.stringify`. Those are foreign calls; their output is the `mock` parameter. Only the fixed error text of the `catch` branch is modelled, and `console.error` is left out.
- The `onRequestChange` callbacks, the `useEffect`/`useReducer` scheduling and the `dispatch` plumbing. They are React event wiring; `Replay` models only the order in which dispatched actions are reduced.
- The behaviour of `GRPCRequest`, `Certificate`, `ProtoInfo`, `Controls`/`isControlVisible` and the action creators. None of them is part of this model.
- `responseTime` arithmetic. The value is only stored.
- Dynamic typing of payloads. In JavaScript an action may carry a payload of any type, or none. The model types each payload as the field it is written to.
