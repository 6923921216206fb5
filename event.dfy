/**
 * The wire envelope exchanged with the remote GUI process, the payload records
 * it carries, and the holder of a raw inbound message (event.go).
 */
module Events {
  import opened Wrappers

  newtype byte = x: int | 0 <= x < 256

  /** Reserved target ids of the two process-level pseudo-objects. */
  const TargetIdApp: string := "app"
  const TargetIdDock: string := "dock"

  /** The reserved ids are distinct, and an envelope addressed to either carries its target id. */
  lemma ReservedTargetIds(name: string)
    ensures TargetIdApp != TargetIdDock
    ensures TargetID in Fields(Envelope(name, TargetIdApp)) && TargetID in Fields(Envelope(name, TargetIdDock))
  {
  }

  /** Bounds of a view; RectangleOptions is declared in a file outside this model. */
  type RectangleOptions

  /** Options of a window or view; WindowOptions is declared in a file outside this model. */
  type WindowOptions

  /** Any Go value held by a message whose dynamic type is not []byte. */
  type OtherValue

  /** EventAuthInfo: `*bool` and `*int` fields are optional, strings use "" for absent. */
  datatype EventAuthInfo = EventAuthInfo(
    host: string,
    isProxy: Option<bool>,
    port: Option<int>,
    realm: string,
    scheme: string)

  datatype UploadData = UploadData(kind: string, bytes: map<string, byte>)

  /** EventRequest: the request a web-request hook reports. */
  datatype EventRequest = EventRequest(
    httpMethod: string,
    referrer: string,
    url: string,
    uploadData: map<int, UploadData>)

  /** DialogOptions is an empty record. */
  datatype DialogOptions = DialogOptions

  datatype FileFilter = FileFilter(name: string, extensions: seq<string>)

  datatype ShowOpenDialogOptions = ShowOpenDialogOptions(
    title: string,
    defaultPath: string,
    buttonLabel: string,
    filters: seq<FileFilter>,
    properties: seq<string>)

  /**
   * The envelope. `name` is always present; every other field is optional:
   * the string fields are absent when empty, the pointer fields when None.
   * Only the payload fields that the modelled files read or write are kept.
   */
  datatype Event = Event(
    name: string,
    targetID: string,
    authInfo: Option<EventAuthInfo>,
    bounds: Option<RectangleOptions>,
    callbackID: string,
    data: string,
    dialogOptions: Option<DialogOptions>,
    message: Option<EventMessage>,
    mimeType: string,
    path: string,
    request: Option<EventRequest>,
    showOpenDialogOptions: Option<ShowOpenDialogOptions>,
    url: string,
    windowOptions: Option<WindowOptions>)

  /** The fields of an Event, by the key its JSON tag gives it. */
  datatype Key =
    | Name | TargetID | AuthInfo | Bounds | CallbackID | Data | DialogOptionsKey | MessageKey
    | MimeType | Path | Request | ShowOpenDialogOptionsKey | Url | WindowOptionsKey

  /** The key each field's JSON tag declares. */
  function JsonKey(k: Key): string
  {
    match k
    case Name => "name"
    case TargetID => "targetID"
    case AuthInfo => "authInfo"
    case Bounds => "bounds"
    case CallbackID => "callbackId"
    case Data => "data"
    case DialogOptionsKey => "dialogOptions"
    case MessageKey => "message"
    case MimeType => "mimeType"
    case Path => "path"
    case Request => "request"
    case ShowOpenDialogOptionsKey => "showOpenDialogOptions"
    case Url => "url"
    case WindowOptionsKey => "windowOptions"
  }

  /** Distinct fields carry distinct JSON keys, so the key set of an event fixes the keys it emits. */
  lemma JsonKeyInjective(a: Key, b: Key)
    ensures JsonKey(a) == JsonKey(b) <==> a == b
  {
  }

  const AllKeys: set<Key> :=
    {Name, TargetID, AuthInfo, Bounds, CallbackID, Data, DialogOptionsKey, MessageKey,
     MimeType, Path, Request, ShowOpenDialogOptionsKey, Url, WindowOptionsKey}

  /** Whether the field under `k` is set: "name" has no omitempty, the rest are kept when non-empty. */
  predicate IsSet(e: Event, k: Key)
  {
    match k
    case Name => true
    case TargetID => e.targetID != ""
    case AuthInfo => e.authInfo.Some?
    case Bounds => e.bounds.Some?
    case CallbackID => e.callbackID != ""
    case Data => e.data != ""
    case DialogOptionsKey => e.dialogOptions.Some?
    case MessageKey => e.message.Some?
    case MimeType => e.mimeType != ""
    case Path => e.path != ""
    case Request => e.request.Some?
    case ShowOpenDialogOptionsKey => e.showOpenDialogOptions.Some?
    case Url => e.url != ""
    case WindowOptionsKey => e.windowOptions.Some?
  }

  /** The fields that serialising `e` emits: the ones whose omitempty tag keeps them. */
  function Fields(e: Event): (keys: set<Key>)
    ensures Name in keys
    ensures TargetID in keys <==> e.targetID != ""
    ensures CallbackID in keys <==> e.callbackID != ""
    ensures AuthInfo in keys <==> e.authInfo.Some?
    ensures Bounds in keys <==> e.bounds.Some?
    ensures Data in keys <==> e.data != ""
    ensures DialogOptionsKey in keys <==> e.dialogOptions.Some?
    ensures MessageKey in keys <==> e.message.Some?
    ensures MimeType in keys <==> e.mimeType != ""
    ensures Path in keys <==> e.path != ""
    ensures Request in keys <==> e.request.Some?
    ensures ShowOpenDialogOptionsKey in keys <==> e.showOpenDialogOptions.Some?
    ensures Url in keys <==> e.url != ""
    ensures WindowOptionsKey in keys <==> e.windowOptions.Some?
  {
    set k | k in AllKeys && IsSet(e, k)
  }

  /** Go's zero Event: what a method returns in its Event result when it fails fast. */
  const ZeroEvent: Event := Envelope("", "")

  /** An envelope `Event{Name: name, TargetID: targetID}` with every payload field absent. */
  function Envelope(name: string, targetID: string): (e: Event)
    ensures e.name == name && e.targetID == targetID
    ensures Fields(e) == if targetID != "" then {Name, TargetID} else {Name}
  {
    Event(name, targetID, None, None, "", "", None, None, "", "", None, None, "", None)
  }

  /** The value an EventMessage holds: the raw bytes it was decoded from, or any other value. */
  datatype Held = Bytes(raw: seq<byte>) | Other(value: OtherValue)

  /** What Unmarshal does: hand the held bytes to the JSON decoder, or refuse. */
  datatype Decoding = Decode(input: seq<byte>) | Refused(error: Error)

  const NotBytesError: Error := Message("event message should []byte")

  /** EventMessage: a holder whose JSON decoding is deferred until Unmarshal is called. */
  class EventMessage {
    var held: Held

    /** newEventMessage(i): the message holds `i` as given. */
    constructor (i: Held)
      ensures held == i
    {
      held := i;
    }

    /** Unmarshal decodes the held bytes; any other held value is an error and nothing is decoded. */
    function Unmarshal(): (d: Decoding)
      reads this
      ensures d.Decode? <==> held.Bytes?
      ensures held.Bytes? ==> d.input == held.raw
      ensures !held.Bytes? ==> d.error == NotBytesError
    {
      if held.Bytes? then Decode(held.raw) else Refused(NotBytesError)
    }

    /** UnmarshalJSON keeps the raw bytes as they are and never fails. */
    method UnmarshalJSON(b: seq<byte>) returns (err: Option<Error>)
      modifies this
      ensures held == Bytes(b) && err == None
      ensures Unmarshal() == Decode(b)
    {
      held := Bytes(b);
      err := None;
    }
  }
}
