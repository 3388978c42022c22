/** Timeline events as they arrive, as they are stored, and as a read gives them
    back. The wire JSON is a record of the fields the client looks at; a field
    that is absent or has the wrong JSON type is `None`, and `rest` stands for
    everything else in the object. */
module Events {
  import opened Base
  import opened Mls

  datatype EventType =
    | Message | Encrypted | MlsCommit
    | Member | Name | Topic | Encryption | CreateRoom
    | OtherType(wire: string)

  datatype MsgType = PlainText | Image | OtherMsg(wire: string)

  /** A JSON value inside an image description: text, an unsigned integer, or
      anything else. */
  datatype Leaf = Text(s: string) | Number(n: nat) | OtherLeaf

  datatype Media = Media(
    url: Option<Leaf>, key: Option<Leaf>, mimetype: Option<Leaf>,
    w: Option<Leaf>, h: Option<Leaf>, size: Option<Leaf>)

  /** `own` holds the media fields at the top level of the content; `file` and
      `info` are present only when they are JSON objects. */
  datatype Content = Content(
    body: Option<string>, msgtype: Option<MsgType>,
    name: Option<string>, topic: Option<string>, membership: Option<string>,
    ciphertext: Option<Cipher>, commit: Option<Commit>,
    own: Media, file: Option<Media>, info: Option<Media>)

  const NO_MEDIA := Media(None, None, None, None, None, None)
  const EMPTY := Content(None, None, None, None, None, None, None, NO_MEDIA, None, None)

  datatype Wire = Wire(
    eventId: Option<string>, roomId: Option<string>, sender: Option<string>,
    ty: Option<EventType>, stateKey: Option<string>,
    ts: Option<int>, depth: Option<int>, content: Content, rest: string)

  /** The columns promoted from the payload, and the payload itself. */
  datatype Event = Event(
    eventId: string, roomId: string, sender: string, ty: EventType,
    stateKey: Option<string>, ts: int, depth: int, payload: Wire)

  /** Required fields are looked up in the order the first missing one is
      reported. */
  function FromWire(w: Wire): Result<Event>
  {
    if w.eventId.None? then Malformed("event_id")
    else if w.roomId.None? then Malformed("room_id")
    else if w.sender.None? then Malformed("sender")
    else if w.ty.None? then Malformed("type")
    else if w.ts.None? then Malformed("origin_server_ts")
    else if w.depth.None? then Malformed("depth")
    else Ok(Event(w.eventId.value, w.roomId.value, w.sender.value, w.ty.value,
                  w.stateKey, w.ts.value, w.depth.value, w))
  }

  /** Every field the client requires is there. */
  predicate Complete(w: Wire)
  {
    w.eventId.Some? && w.roomId.Some? && w.sender.Some? && w.ty.Some? && w.ts.Some? && w.depth.Some?
  }

  /** The columns are the wire's own fields, the state key present exactly when the
      wire carries one. */
  predicate ColumnsOf(ev: Event, w: Wire)
  {
    && w.eventId == Some(ev.eventId) && w.roomId == Some(ev.roomId) && w.sender == Some(ev.sender)
    && w.ty == Some(ev.ty) && w.stateKey == ev.stateKey && w.ts == Some(ev.ts) && w.depth == Some(ev.depth)
    && ev.payload == w
  }

  predicate Lacks(w: Wire, field: string)
  {
    || (field == "event_id" && w.eventId.None?) || (field == "room_id" && w.roomId.None?)
    || (field == "sender" && w.sender.None?) || (field == "type" && w.ty.None?)
    || (field == "origin_server_ts" && w.ts.None?) || (field == "depth" && w.depth.None?)
  }

  /** A wire event parses if and only if it is complete, into its own fields;
      otherwise the error names a field it lacks. */
  lemma WireParses(w: Wire)
    ensures FromWire(w).Ok? <==> Complete(w)
    ensures FromWire(w).Ok? ==> ColumnsOf(FromWire(w).value, w)
    ensures FromWire(w).Malformed? ==> Lacks(w, FromWire(w).field)
  {
  }

  function ToWire(id: string, room: string, sender: string, ty: EventType, ts: int, depth: int, content: Content): Wire
  {
    Wire(Some(id), Some(room), Some(sender), Some(ty), None, Some(ts), Some(depth), content, "")
  }

  /** The content of a text message, as queued and as sent in a plaintext room. */
  function TextContent(body: string): Content
  {
    EMPTY.(body := Some(body), msgtype := Some(PlainText))
  }

  function SealedContent(c: Sealed): Content
  {
    EMPTY.(ciphertext := Some(Genuine(c)))
  }

  /** Content with nothing to show and nothing to open. */
  predicate Bare(c: Content)
  {
    && c.body.None? && c.msgtype.None? && c.name.None? && c.topic.None? && c.membership.None?
    && c.ciphertext.None? && c.commit.None? && c.own == NO_MEDIA && c.file.None? && c.info.None?
  }

  /** The content of a plaintext message: its text, typed as text, and nothing else. */
  predicate IsText(c: Content, body: string)
  {
    c.body == Some(body) && c.msgtype == Some(PlainText) && Bare(c.(body := None, msgtype := None))
  }

  /** The content of an encrypted message: its ciphertext, and nothing in the clear. */
  predicate IsSealed(c: Content, sealed: Sealed)
  {
    c.ciphertext == Some(Genuine(sealed)) && Bare(c.(ciphertext := None))
  }

  // --- Rows -----------------------------------------------------------------

  datatype SendState = Confirmed | Sending | Failed

  /** The `decrypt_state` column: not attempted, done, or given up. */
  datatype DecryptState = Untried | Done | GaveUp

  datatype Row = Row(ev: Event, local: SendState, decrypted: Option<string>, state: DecryptState)

  /** What a read hands back. */
  datatype Stored = Stored(event: Event, sendState: SendState, decrypted: Option<string>, decryptFailed: bool)

  /** Every read rebuilds the event from the payload, never from the columns. */
  function ParseStored(payload: Wire, local: SendState, decrypted: Option<string>, state: DecryptState): Result<Stored>
  {
    match FromWire(payload)
    case Malformed(f) => Malformed(f)
    case Ok(ev) => Ok(Stored(ev, local, decrypted, state == GaveUp))
  }

  /** Columns and payload tell the same story. */
  predicate Agrees(r: Row)
  {
    FromWire(r.ev.payload) == Ok(r.ev)
  }

  function ReadBack(r: Row): Stored
  {
    Stored(r.ev, r.local, r.decrypted, r.state == GaveUp)
  }
}
