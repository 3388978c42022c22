/** What the user interface is given for a stored row. */
module Render {
  import opened Base
  import opened Events

  datatype ImageContent = ImageContent(
    uri: string, mimetype: string, width: nat, height: nat, size: nat, key: Option<string>)

  datatype TimelineEvent = TimelineEvent(
    eventId: string, sender: string, ts: int, cursor: int,
    body: Option<string>, systemText: Option<string>,
    pending: bool, failed: bool, image: Option<ImageContent>)

  const UNREADABLE := "\U{26A0} Unable to decrypt this message"
  const U32 := 0x1_0000_0000

  function AsText(l: Option<Leaf>): Option<string>
  {
    if l.Some? && l.value.Text? then Some(l.value.s) else None
  }

  function AsNumber(l: Option<Leaf>): nat
  {
    if l.Some? && l.value.Number? then l.value.n else 0
  }

  /** `info` wins over the holder even when its value has the wrong type. */
  function Meta(info: Option<Leaf>, holder: Option<Leaf>): Option<Leaf>
  {
    if info.Some? then info else holder
  }

  function ParseImage(c: Content): Option<ImageContent>
  {
    var holder := if c.file.Some? then c.file.value else c.own;
    var key := if c.file.Some? then AsText(c.file.value.key) else None;
    var info := if c.info.Some? then c.info.value else NO_MEDIA;
    match AsText(holder.url)
    case None => None
    case Some(uri) =>
      var mime := AsText(Meta(info.mimetype, holder.mimetype));
      Some(ImageContent(
             uri, if mime.Some? then mime.value else "application/octet-stream",
             AsNumber(Meta(info.w, holder.w)) % U32,
             AsNumber(Meta(info.h, holder.h)) % U32,
             AsNumber(Meta(info.size, holder.size)), key))
  }

  function RenderSystem(ev: Event): Option<string>
  {
    var c := ev.payload.content;
    match ev.ty
    case Member =>
      var membership := if c.membership.Some? then c.membership.value else "";
      var target := if ev.stateKey.Some? then ev.stateKey.value else ev.sender;
      Some(if membership == "join" then target + " joined"
           else if membership == "leave" then target + " left"
           else if membership == "invite" then ev.sender + " invited " + target
           else if membership == "ban" then ev.sender + " banned " + target
           else if membership == "knock" then target + " requested to join"
           else target + ": " + membership)
    case Name =>
      Some(if c.name.Some? then "Room name set to \U{201C}" + c.name.value + "\U{201D}"
           else "Room name removed")
    case Topic => Some("Topic updated")
    case Encryption => Some("Encryption enabled")
    case CreateRoom => Some("Room created")
    case _ => None
  }

  /** `json` parses a decrypted plaintext as message content, if it is a JSON
      object at all. */
  function DecryptedImage(json: string -> Option<Content>, s: Stored): Option<Content>
  {
    if s.event.ty == Encrypted && s.decrypted.Some? then
      var c := json(s.decrypted.value);
      if c.Some? && c.value.msgtype == Some(Image) then c else None
    else None
  }

  function Render(json: string -> Option<Content>, s: Stored): TimelineEvent
  {
    var c := s.event.payload.content;
    var hidden := DecryptedImage(json, s);
    var image :=
      if s.event.ty == Message && c.msgtype == Some(Image) then ParseImage(c)
      else if hidden.Some? then ParseImage(hidden.value) else None;
    var body :=
      match s.event.ty
      case Message => c.body
      case Encrypted => if hidden.Some? then hidden.value.body else s.decrypted
      case _ => None;
    var systemText :=
      if body.Some? then None
      else if s.event.ty == Encrypted then (if s.decryptFailed then Some(UNREADABLE) else None)
      else RenderSystem(s.event);
    TimelineEvent(s.event.eventId, s.event.sender, s.event.ts, s.event.depth,
                  body, systemText, s.sendState == Sending, s.sendState == Failed, image)
  }

  /** A plaintext that would render as an image attachment. */
  predicate IsImageJson(json: string -> Option<Content>, text: string)
  {
    json(text).Some? && json(text).value.msgtype == Some(Image)
  }

  /** A text message shows its text and nothing else, under its own id, sender, time
      and place, pending while its row is Sending and failed when it is Failed. */
  lemma TextShows(json: string -> Option<Content>, s: Stored, body: string)
    requires s.event.ty == Message && IsText(s.event.payload.content, body)
    ensures var t := Render(json, s);
            && t.eventId == s.event.eventId && t.sender == s.event.sender && t.ts == s.event.ts
            && t.cursor == s.event.depth
            && t.body == Some(body) && t.systemText.None? && t.image.None?
  {
  }

  /** Whatever the event, it is pending while its row is Sending, failed when it is
      Failed, and neither once it is confirmed. */
  lemma SendStateShows(json: string -> Option<Content>, s: Stored)
    ensures var t := Render(json, s);
            && (s.sendState == Sending ==> t.pending && !t.failed)
            && (s.sendState == Failed ==> t.failed && !t.pending)
            && (s.sendState == Confirmed ==> !t.pending && !t.failed)
  {
  }

  /** A ciphertext without its text shows nothing until it is given up, and then the
      placeholder. */
  lemma UnreadShows(json: string -> Option<Content>, s: Stored)
    requires s.event.ty == Encrypted && s.decrypted.None?
    ensures var t := Render(json, s);
            && t.body.None? && t.image.None?
            && (t.systemText == if s.decryptFailed then Some("\U{26A0} Unable to decrypt this message") else None)
  {
  }

  /** A width or height: the one under `info` if there is any, else the holder's; 0
      unless it is a number. */
  predicate Prefers(info: Option<Leaf>, holder: Option<Leaf>, shown: nat)
  {
    && (info.Some? && info.value.Number? ==> shown == info.value.n % 0x1_0000_0000)
    && (info.None? && holder.Some? && holder.value.Number? ==> shown == holder.value.n % 0x1_0000_0000)
    && (info.Some? && !info.value.Number? ==> shown == 0) && (info.None? && holder.None? ==> shown == 0)
  }

  /** An image needs an address in text; an encrypted one takes address and key from
      its file, any other has no key; width and height are cut to 32 bits, the size is
      not. */
  lemma ImageNeedsAddress(c: Content)
    ensures ParseImage(c).Some? <==>
              var address := if c.file.Some? then c.file.value.url else c.own.url;
              address.Some? && address.value.Text?
    ensures ParseImage(c).Some? ==>
              var image := ParseImage(c).value;
              && (if c.file.Some? then c.file.value.url else c.own.url) == Some(Text(image.uri))
              && (image.key.Some? <==> c.file.Some? && c.file.value.key.Some? && c.file.value.key.value.Text?)
              && (image.key.Some? ==> c.file.value.key == Some(Text(image.key.value)))
              && image.width < 0x1_0000_0000 && image.height < 0x1_0000_0000
              && var holder := if c.file.Some? then c.file.value else c.own;
                 var info := if c.info.Some? then c.info.value else NO_MEDIA;
                 && Prefers(info.w, holder.w, image.width) && Prefers(info.h, holder.h, image.height)
                 && (info.size.Some? && info.size.value.Number? ==> image.size == info.size.value.n)
                 && (info.size.None? && holder.size.Some? && holder.size.value.Number? ==>
                       image.size == holder.size.value.n)
                 && (info.mimetype.None? && holder.mimetype.Some? && holder.mimetype.value.Text? ==>
                       image.mimetype == holder.mimetype.value.s)
                 && (info.mimetype.Some? && info.mimetype.value.Text? ==> image.mimetype == info.mimetype.value.s)
                 && (info.mimetype.None? && holder.mimetype.None? ==> image.mimetype == "application/octet-stream")
  {
  }

  /** The line of a membership change is about its target, or the sender when the
      event names none; only an invitation or a ban also names who did it. */
  lemma MemberLine(json: string -> Option<Content>, s: Stored, who: string)
    requires s.event.ty == Member
    requires who == if s.event.stateKey.Some? then s.event.stateKey.value else s.event.sender
    ensures var t, m := Render(json, s), s.event.payload.content.membership;
            && t.body.None? && t.image.None?
            && (m == Some("join") ==> t.systemText == Some(who + " joined"))
            && (m == Some("leave") ==> t.systemText == Some(who + " left"))
            && (m == Some("knock") ==> t.systemText == Some(who + " requested to join"))
            && (m == Some("invite") ==> t.systemText == Some(s.event.sender + " invited " + who))
            && (m == Some("ban") ==> t.systemText == Some(s.event.sender + " banned " + who))
  {
    assert "join"[0] != "leave"[0] && "join"[0] != "invite"[0] && "join"[0] != "ban"[0] && "join"[0] != "knock"[0];
  }

  /** The other state events have a line of their own, a name's with the name in it;
      what is none of them and no message shows nothing. */
  lemma StateLine(json: string -> Option<Content>, s: Stored)
    ensures var t, name := Render(json, s).systemText, s.event.payload.content.name;
            && (s.event.ty == Name && name.Some? ==>
                  t == Some("Room name set to \U{201C}" + name.value + "\U{201D}"))
            && (s.event.ty == Name && name.None? ==> t == Some("Room name removed"))
            && (s.event.ty == Topic ==> t == Some("Topic updated"))
            && (s.event.ty == Encryption ==> t == Some("Encryption enabled"))
            && (s.event.ty == CreateRoom ==> t == Some("Room created"))
            && (s.event.ty.OtherType? || s.event.ty == MlsCommit || s.event.ty == Message ==> t.None?)
  {
  }
}
