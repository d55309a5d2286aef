/** Sending: the request each media kind is posted as, the outcome rules of
    the media and text sends, and the three-way composition of
    `sendMessage`. The POST is an input (`HttpOutcome`); the media content
    is an input too (what the scanner or the location script produced); the
    two clock readings (message id, document file name) are parameters. */
module Sending {
  import opened Wrappers
  import opened Types
  import opened Strings
  import opened Draws
  import opened Logger
  import opened LocationScript

  /** How the POST ended: a response with its status, or an error thrown
      before any response (network failure, timeout). */
  datatype HttpOutcome = Status(code: nat) | Threw(error: ErrorValue)

  /** The client keeps axios' default `validateStatus`: only a 2xx response
      resolves the request; any other status rejects it. */
  predicate Answered(post: HttpOutcome)
  {
    post.Status? && 200 <= post.code < 300
  }

  /** The error a rejected POST lands in the catch block with: the thrown
      error, or axios' error for a status outside 2xx. */
  function Rejection(post: HttpOutcome): (e: ErrorValue)
    requires !Answered(post)
    ensures post.Threw? ==> e == post.error
    ensures post.Status? ==> e.message != "" && IsSuffix(NatText(post.code), e.message)
  {
    match post
    case Threw(error) => error
    case Status(code) =>
      var message := "Request failed with status code " + NatText(code);
      assert message[|message| - |NatText(code)|..] == NatText(code);
      ErrorValue(message, "AxiosError: " + message)
  }

  datatype Payload =
    | FilePayload(field: string, dataUri: string, caption: Option<string>, fileName: Option<string>)
    | LocationPayload(latitude: real, longitude: real, name: string)

  datatype MediaRequest = MediaRequest(endpoint: string, phone: string, id: string, payload: Payload)

  // ---------------------------------------------------------------------
  // The kind table

  /** The API route each kind is posted to. */
  function Endpoint(kind: MessageType): string
  {
    "/chat/send/" + kind.Value()
  }

  /** The kind an API route belongs to. */
  function KindOfEndpoint(endpoint: string): (res: Option<MessageType>)
    ensures res.Some? ==> Endpoint(res.value) == endpoint
  {
    if endpoint == Endpoint(Text) then Some(Text)
    else if endpoint == Endpoint(Audio) then Some(Audio)
    else if endpoint == Endpoint(Image) then Some(Image)
    else if endpoint == Endpoint(Video) then Some(Video)
    else if endpoint == Endpoint(Document) then Some(Document)
    else if endpoint == Endpoint(Sticker) then Some(Sticker)
    else if endpoint == Endpoint(Location) then Some(Location)
    else None
  }

  /** Each kind has its own route. */
  lemma EndpointRoundTrip(kind: MessageType)
    ensures KindOfEndpoint(Endpoint(kind)) == Some(kind)
  {
    assert Endpoint(kind)[11..] == kind.Value();
  }

  /** The kinds whose content is a base64 file. */
  predicate IsFileKind(kind: MessageType)
  {
    kind != Text && kind != Location
  }

  /** The payload field and MIME type of a file kind. */
  function FieldName(kind: MessageType): string
    requires IsFileKind(kind)
  {
    match kind
    case Audio => "Audio"
    case Image => "Image"
    case Video => "Video"
    case Document => "Document"
    case Sticker => "Sticker"
  }

  function MimeType(kind: MessageType): (mime: string)
    requires IsFileKind(kind)
    ensures ';' !in mime
  {
    match kind
    case Audio => "audio/ogg"
    case Image => "image/jpeg"
    case Video => "video/mp4"
    case Document => "application/octet-stream"
    case Sticker => "image/webp"
  }

  const Base64Marker := ";base64,"

  function DataUri(mime: string, data: string): string
  {
    "data:" + mime + Base64Marker + data
  }

  /** A data URI split back into its MIME type and content. */
  function SplitDataUri(uri: string): Option<(string, string)>
  {
    if !IsPrefix("data:", uri) then None
    else
      var rest := uri[5..];
      match IndexOf(rest, ';')
      case None => None
      case Some(i) =>
        if IsPrefix(Base64Marker, rest[i..]) then Some((rest[..i], rest[i + 8..])) else None
  }

  /** Data URIs read back, so the base64 content reaches the API intact. */
  lemma DataUriRoundTrip(mime: string, data: string)
    requires ';' !in mime
    ensures SplitDataUri(DataUri(mime, data)) == Some((mime, data))
  {
    var uri := DataUri(mime, data);
    assert uri[..5] == "data:";
    var rest := uri[5..];
    assert rest == mime + [';'] + ("base64," + data);
    IndexOfAfter(mime, ';', "base64," + data);
    assert rest[|mime|..][..8] == Base64Marker;
    assert rest[..|mime|] == mime;
    assert rest[|mime| + 8..] == data;
  }

  function Caption(kind: MessageType): Option<string>
  {
    match kind
    case Image => Some("Imagem enviada pelo maturador")
    case Video => Some("Vídeo enviado pelo maturador")
    case _ => None
  }

  function FileName(kind: MessageType, stamp: string): Option<string>
  {
    if kind == Document then Some("documento_" + stamp + ".txt") else None
  }

  /** The request `sendMediaMessage` builds for `kind`, or `None` when it
      returns false before posting: for text, and when the content came back
      empty (`blob` for file kinds, `place` for a location). The message id
      and the document's file name each read the clock: `idStamp` before the
      content is fetched, `fileStamp` after. */
  function BuildMediaRequest(kind: MessageType, toPhone: string, idStamp: string, fileStamp: string,
                             blob: string, place: Option<LocationEntry>): (req: Option<MediaRequest>)
    ensures req.Some? <==> (IsFileKind(kind) && blob != "") || (kind == Location && place.Some?)
    ensures req.Some? ==> req.value.endpoint == Endpoint(kind) && req.value.phone == toPhone
                          && req.value.id == "MSG_" + idStamp
    ensures req.Some? && IsFileKind(kind) ==>
      var p := req.value.payload;
      p.FilePayload? && p.field == FieldName(kind)
      && SplitDataUri(p.dataUri) == Some((MimeType(kind), blob))
      && p.caption == Caption(kind) && p.fileName == FileName(kind, fileStamp)
    ensures req.Some? && kind == Location ==>
      var p := req.value.payload;
      p.LocationPayload? && p.latitude == place.value.latitude && p.longitude == place.value.longitude
      && p.name != "" && (place.value.name != "" ==> p.name == place.value.name)
  {
    var id := "MSG_" + idStamp;
    if kind == Text then None
    else if kind == Location then
      match place
      case None => None
      case Some(e) =>
        Some(MediaRequest(Endpoint(kind), toPhone, id,
                          LocationPayload(e.latitude, e.longitude, if e.name != "" then e.name else "Location")))
    else if blob == "" then None
    else
      DataUriRoundTrip(MimeType(kind), blob);
      Some(MediaRequest(Endpoint(kind), toPhone, id,
                        FilePayload(FieldName(kind), DataUri(MimeType(kind), blob), Caption(kind), FileName(kind, fileStamp))))
  }

  /** The details the media log entry carries: the place for a location, the
      caption when there is one, the file name when there is one, nothing
      otherwise. `show` renders a coordinate. */
  function Details(kind: MessageType, p: Payload, show: real -> string): (d: string)
    ensures kind == Location && p.LocationPayload? && p.name != "" ==> IsPrefix("Nome: " + p.name, d)
    ensures p.FilePayload? && p.caption.Some? && p.caption.value != "" ==> d == "Legenda: " + p.caption.value
    ensures p.FilePayload? && (p.caption.None? || p.caption.value == "") && p.fileName.Some? && p.fileName.value != ""
            ==> d == "Arquivo: " + p.fileName.value
  {
    match p
    case LocationPayload(lat, long, name) =>
      if kind == Location && name != "" then
        var d := "Nome: " + name + ", Lat: " + show(lat) + ", Long: " + show(long);
        assert d[..|"Nome: " + name|] == "Nome: " + name;
        d
      else ""
    case FilePayload(_, _, caption, fileName) =>
      if caption.Some? && caption.value != "" then "Legenda: " + caption.value
      else if fileName.Some? && fileName.value != "" then "Arquivo: " + fileName.value
      else ""
  }

  /** The outcome of one send: whether it counts as success, the request
      posted (if any) and the log event it records (if any). */
  datatype MediaReport = MediaReport(ok: bool, request: Option<MediaRequest>, logged: Option<LogEvent>)

  /** `sendMediaMessage`: true exactly when a request was built and the
      POST answered 200; a rejected POST (a thrown error or a status outside
      2xx) is logged as an error, an answered one as a media entry, and
      nothing is posted or logged when there was no content. `fromPhone` is
      what the token lookup returned. */
  function SendMediaMessage(kind: MessageType, toPhone: string, idStamp: string, fileStamp: string, blob: string,
                            place: Option<LocationEntry>, post: HttpOutcome, fromPhone: string,
                            show: real -> string): (rep: MediaReport)
    ensures rep.request == BuildMediaRequest(kind, toPhone, idStamp, fileStamp, blob, place)
    ensures rep.ok <==> rep.request.Some? && post == Status(200)
    ensures kind == Text ==> !rep.ok && rep.request.None?
    ensures rep.request.None? ==> rep.logged.None?
    ensures rep.request.Some? && !Answered(post) ==>
      rep.logged == Some(Failed("Envio de mídia " + kind.Value() + " para " + toPhone, Rejection(post)))
    ensures rep.request.Some? && Answered(post) ==>
      rep.logged.Some? && rep.logged.value.MediaSent? && rep.logged.value.success == rep.ok
      && rep.logged.value.from == fromPhone && rep.logged.value.to == toPhone
      && rep.logged.value.mediaType == kind.Value()
  {
    match BuildMediaRequest(kind, toPhone, idStamp, fileStamp, blob, place)
    case None => MediaReport(false, None, None)
    case Some(req) =>
      if !Answered(post) then
        MediaReport(false, Some(req), Some(Failed("Envio de mídia " + kind.Value() + " para " + toPhone, Rejection(post))))
      else
        var ok := post.code == 200;
        MediaReport(ok, Some(req), Some(MediaSent(fromPhone, toPhone, kind.Value(), ok, Details(kind, req.payload, show))))
  }

  datatype TextReport = TextReport(ok: bool, logged: LogEvent)

  /** `sendTextMessage`: true exactly when the POST answered 200; an
      answered POST logs the message with that status, a rejected one logs
      the error. */
  function SendTextMessage(toPhone: string, message: string, post: HttpOutcome, fromPhone: string): (rep: TextReport)
    ensures rep.ok <==> post == Status(200)
    ensures Answered(post) ==> rep.logged == TextSent(fromPhone, toPhone, message, rep.ok)
    ensures !Answered(post) ==> rep.logged == Failed("Envio de texto para " + toPhone, Rejection(post))
  {
    if !Answered(post) then TextReport(false, Failed("Envio de texto para " + toPhone, Rejection(post)))
    else TextReport(post.code == 200, TextSent(fromPhone, toPhone, message, post.code == 200))
  }

  /** The text log agrees with the returned flag: an answered POST's entry
      opens with [SUCESSO] exactly when the send succeeded, and [FALHA]
      otherwise; a rejected POST never succeeds and logs an error entry
      naming the recipient. */
  lemma TextLogAgrees(toPhone: string, message: string, post: HttpOutcome, fromPhone: string)
    ensures var rep := SendTextMessage(toPhone, message, post, fromPhone);
      && (Answered(post) ==> (IsPrefix(" [SUCESSO]", Body(rep.logged)) <==> rep.ok)
                             && (IsPrefix(" [FALHA]", Body(rep.logged)) <==> !rep.ok))
      && (!Answered(post) ==> !rep.ok && rep.logged.Failed? && IsSuffix(toPhone, rep.logged.context))
  {
    var rep := SendTextMessage(toPhone, message, post, fromPhone);
    if Answered(post) {
      TextEntryStatus(fromPhone, toPhone, message, rep.ok);
    } else {
      var context := "Envio de texto para " + toPhone;
      assert context[|context| - |toPhone|..] == toPhone;
    }
  }

  /** A missing or empty file never reaches the API, and a location with no
      name is sent as "Location". */
  lemma EmptyContentIsNotSent(kind: MessageType, toPhone: string, idStamp: string, fileStamp: string, post: HttpOutcome,
                              fromPhone: string, show: real -> string, e: LocationEntry)
    ensures IsFileKind(kind) ==> !SendMediaMessage(kind, toPhone, idStamp, fileStamp, "", None, post, fromPhone, show).ok
    ensures !SendMediaMessage(Location, toPhone, idStamp, fileStamp, "", None, post, fromPhone, show).ok
    ensures e.name == "" ==>
      var req := BuildMediaRequest(Location, toPhone, idStamp, fileStamp, "", Some(e));
      req.Some? && req.value.payload.name == "Location"
  {
  }

  // ---------------------------------------------------------------------
  // Composition

  /** The media kinds `sendMessage` draws from: every kind but text, in
      enumeration order. */
  const NonTextKinds: seq<MessageType> := [Audio, Image, Video, Document, Sticker, Location]

  /** `getRandomMessageSequence`. */
  function RandomMessageSequence(r: real): (s: MessageSequence)
    requires IsDraw(r)
    ensures s in AllSequences
  {
    AllSequences[Index(r, |AllSequences|)]
  }

  /** `getRandomMessageType`: any of the seven kinds. */
  function RandomMessageType(r: real): (k: MessageType)
    requires IsDraw(r)
    ensures k in AllKinds
  {
    AllKinds[Index(r, |AllKinds|)]
  }

  /** The media kind `sendMessage` draws. */
  function RandomMediaKind(r: real): (k: MessageType)
    requires IsDraw(r)
    ensures k in NonTextKinds && k != Text
  {
    NonTextKinds[Index(r, |NonTextKinds|)]
  }

  /** The pause between the two sends of a composition, in ms. */
  function PauseMs(r: real): (ms: int)
    requires IsDraw(r)
    ensures 5000 <= ms <= 14999
  {
    5000 + Index(r, 10000)
  }

  /** Every composition, every non-text kind and every pause is drawn by some
      draw; text never is. */
  lemma DrawsCoverChoices(s: MessageSequence, kind: MessageType, ms: int)
    requires kind != Text && 5000 <= ms <= 14999
    ensures exists r :: IsDraw(r) && RandomMessageSequence(r) == s
    ensures exists r :: IsDraw(r) && RandomMediaKind(r) == kind
    ensures exists r :: IsDraw(r) && PauseMs(r) == ms
  {
    var i := match s case MediaOnly => 0 case MediaThenText => 1 case TextThenMedia => 2;
    IndexReachesEvery(i, 3);
    assert RandomMessageSequence(i as real / 3 as real) == s;
    var j := match kind case Audio => 0 case Image => 1 case Video => 2 case Document => 3
                        case Sticker => 4 case Location => 5;
    IndexReachesEvery(j, 6);
    assert RandomMediaKind(j as real / 6 as real) == kind;
    IndexReachesEvery(ms - 5000, 10000);
    assert PauseMs((ms - 5000) as real / 10000 as real) == ms;
  }

  datatype Step = SendMedia(kind: MessageType) | Pause(ms: int) | SendText

  /** What `sendMessage` did: the composition drawn, the event announcing
      it, the sends and pause in order, and its result. */
  datatype Composition = Composition(sequence: MessageSequence, announced: LogEvent, steps: seq<Step>, success: bool)

  /** `sendMessage`, driven by the outcomes the media and the text send would
      have (each is consulted only if that send happens). */
  function SendMessage(fromPhone: string, toPhone: string, rSequence: real, rKind: real, rPause: real,
                       mediaOk: bool, textOk: bool): (c: Composition)
    requires IsDraw(rSequence) && IsDraw(rKind) && IsDraw(rPause)
    ensures c.sequence == RandomMessageSequence(rSequence)
    ensures c.announced == SequenceStarted(fromPhone, toPhone, c.sequence.Value())
    ensures |c.steps| > 0
    ensures forall i | 0 <= i < |c.steps| :: c.steps[i] != SendMedia(Text)
    ensures c.sequence == MediaOnly ==> c.steps == [SendMedia(RandomMediaKind(rKind))] && c.success == mediaOk
    ensures c.sequence == MediaThenText ==>
      c.steps[0] == SendMedia(RandomMediaKind(rKind)) && c.success == mediaOk
      && (SendText in c.steps <==> mediaOk)
    ensures c.sequence == TextThenMedia ==>
      c.steps[0] == SendText && c.success == textOk
      && (SendMedia(RandomMediaKind(rKind)) in c.steps <==> textOk)
    ensures forall i | 0 <= i < |c.steps| && c.steps[i].Pause? :: 5000 <= c.steps[i].ms <= 14999
  {
    var s := RandomMessageSequence(rSequence);
    var media := SendMedia(RandomMediaKind(rKind));
    var pause := Pause(PauseMs(rPause));
    var announced := SequenceStarted(fromPhone, toPhone, s.Value());
    match s
    case MediaOnly => Composition(s, announced, [media], mediaOk)
    case MediaThenText => Composition(s, announced, if mediaOk then [media, pause, SendText] else [media], mediaOk)
    case TextThenMedia => Composition(s, announced, if textOk then [SendText, pause, media] else [SendText], textOk)
  }

  /** Whatever the draws and outcomes, a composition is at most one media
      send and one text send with a single pause between them, and it only
      ever pauses before a second send. */
  lemma CompositionShape(fromPhone: string, toPhone: string, rSequence: real, rKind: real, rPause: real,
                         mediaOk: bool, textOk: bool)
    requires IsDraw(rSequence) && IsDraw(rKind) && IsDraw(rPause)
    ensures var c := SendMessage(fromPhone, toPhone, rSequence, rKind, rPause, mediaOk, textOk);
      1 <= |c.steps| <= 3 && !c.steps[0].Pause? && (|c.steps| > 1 ==> c.steps[1].Pause? && |c.steps| == 3)
      && (|c.steps| == 3 ==> c.success && c.steps[0] != c.steps[2])
  {
  }
}
