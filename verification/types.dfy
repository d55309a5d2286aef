/** The record types shared by the personality engine and the scheduler. */
module Types {

  /** The seven message kinds, declared in the order the source enumerates
      them; every catalog entry lists its media weights in this order. */
  datatype MessageType = Text | Audio | Image | Video | Document | Sticker | Location
  {
    /** The enum's string value. */
    function Value(): string
    {
      match this
      case Text => "text"
      case Audio => "audio"
      case Image => "image"
      case Video => "video"
      case Document => "document"
      case Sticker => "sticker"
      case Location => "location"
    }
  }

  /** `Object.values(MessageType)`: the enumeration order. */
  const AllKinds: seq<MessageType> := [Text, Audio, Image, Video, Document, Sticker, Location]

  /** The three message compositions, in enumeration order. */
  datatype MessageSequence = MediaOnly | MediaThenText | TextThenMedia
  {
    function Value(): string
    {
      match this
      case MediaOnly => "media_only"
      case MediaThenText => "media_then_text"
      case TextThenMedia => "text_then_media"
    }
  }

  const AllSequences: seq<MessageSequence> := [MediaOnly, MediaThenText, TextThenMedia]

  /** Interval bounds in milliseconds: `peak` is the most likely value. */
  datatype Frequency = Frequency(min: int, max: int, peak: int)

  /** A `mediaPreferences` object as `Object.entries` yields it: kind and
      weight pairs in insertion order. */
  type MediaPreferences = seq<(MessageType, real)>

  datatype BehaviorTraits = BehaviorTraits(
    responseChance: real,
    initiateConversationChance: real,
    sendMultipleMessages: real,
    useEmojis: real,
    sendVoiceMessages: real)
  {
    predicate InUnitInterval()
    {
      && 0.0 <= responseChance <= 1.0
      && 0.0 <= initiateConversationChance <= 1.0
      && 0.0 <= sendMultipleMessages <= 1.0
      && 0.0 <= useEmojis <= 1.0
      && 0.0 <= sendVoiceMessages <= 1.0
    }
  }

  /** Active window; `start > end` means the window wraps past midnight. */
  datatype ActiveHours = ActiveHours(start: int, end: int)

  datatype PersonalityProfile = PersonalityProfile(
    id: string,
    name: string,
    description: string,
    messageFrequency: Frequency,
    mediaPreferences: MediaPreferences,
    vocabulary: seq<string>,
    behaviorTraits: BehaviorTraits,
    activeHours: ActiveHours)

  /** The part of an account snapshot the scheduler reads. */
  datatype WuzapiInstance = WuzapiInstance(
    id: string,
    jid: string,
    name: string,
    token: string,
    connected: bool,
    loggedIn: bool)

  /** The discovery endpoint's reply body. */
  datatype WuzapiResponse = WuzapiResponse(code: int, data: seq<WuzapiInstance>, success: bool)

  /** The kinds of a `mediaPreferences` list, in order. */
  function Keys(prefs: MediaPreferences): (ks: seq<MessageType>)
    ensures |ks| == |prefs|
    ensures forall i :: 0 <= i < |prefs| ==> ks[i] == prefs[i].0
  {
    seq(|prefs|, i requires 0 <= i < |prefs| => prefs[i].0)
  }

  /** The weights of a `mediaPreferences` list, in order. */
  function Weights(prefs: MediaPreferences): (ws: seq<real>)
    ensures |ws| == |prefs|
    ensures forall i :: 0 <= i < |prefs| ==> ws[i] == prefs[i].1
  {
    seq(|prefs|, i requires 0 <= i < |prefs| => prefs[i].1)
  }

  /** Each kind occurs exactly once in the enumeration order, and the
      sequences likewise. */
  lemma EnumerationsAreExhaustive()
    ensures |AllKinds| == 7 && forall k: MessageType :: k in AllKinds
    ensures forall i, j :: 0 <= i < j < |AllKinds| ==> AllKinds[i] != AllKinds[j]
    ensures |AllSequences| == 3 && forall s: MessageSequence :: s in AllSequences
    ensures forall i, j :: 0 <= i < j < |AllSequences| ==> AllSequences[i] != AllSequences[j]
  {
    forall k: MessageType ensures k in AllKinds {
      match k
      case Text => assert AllKinds[0] == k;
      case Audio => assert AllKinds[1] == k;
      case Image => assert AllKinds[2] == k;
      case Video => assert AllKinds[3] == k;
      case Document => assert AllKinds[4] == k;
      case Sticker => assert AllKinds[5] == k;
      case Location => assert AllKinds[6] == k;
    }
    forall s: MessageSequence ensures s in AllSequences {
      match s
      case MediaOnly => assert AllSequences[0] == s;
      case MediaThenText => assert AllSequences[1] == s;
      case TextThenMedia => assert AllSequences[2] == s;
    }
  }
}
