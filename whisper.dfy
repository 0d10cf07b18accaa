/**
 * The PubSub whisper message: the records the `Whisper` constructor builds
 * from a JSON tree and the decoders that build them. Every record is written
 * once, while it is constructed, so records are values; a decoder returns the
 * record, or the reason the constructor would have thrown.
 */
module WhisperMessage {
  import opened Wrappers
  import opened JsonTree
  import opened Parsing
  import opened Decimal

  /** Why a constructor throws. The .NET exceptions carry no member name; the
      model records the key whose token caused the failure. */
  datatype DecodeError =
    | MissingField(key: string)     // the lookup gave null and the code dereferenced it
    | NotAnInteger(key: string)     // long.Parse / int.Parse threw FormatException
    | IntegerOverflow(key: string)  // long.Parse / int.Parse threw OverflowException
    | NotABoolean(key: string)      // bool.Parse threw FormatException
    | NotAnArray(key: string)       // a list member holds an object: its enumeration is not modelled

  type Decoded<T> = Result<T, DecodeError>

  datatype WhisperType = WhisperReceived | Thread | Unknown

  datatype Badge = Badge(id: Option<string>, version: Option<string>)

  datatype Emote = Emote(id: int32, start: int32, end: int32)

  datatype Tags = Tags(
    login: Option<string>,
    displayName: Option<string>,
    color: Option<string>,
    userType: Option<string>,
    emotes: seq<Emote>,
    badges: seq<Badge>)

  datatype Recipient = Recipient(
    id: string,
    username: Option<string>,
    displayName: Option<string>,
    color: Option<string>,
    userType: Option<string>,
    badges: seq<Badge>)

  datatype WhisperReceivedData = WhisperReceivedData(
    id: string,
    threadId: Option<string>,
    body: Option<string>,
    sentTs: int64,
    fromId: string,
    tags: Tags,
    recipient: Recipient,
    nonce: Option<string>)

  datatype SpamInfo = SpamInfo(likelihood: string, lastMarkedNotSpam: int64)

  datatype ThreadData = ThreadData(
    id: string,
    lastRead: int64,
    archived: bool,
    muted: bool,
    spamInfo: SpamInfo)

  /** The decoded message: the `type` and `data` texts, the kind, and the payload
      slot for that kind (the other slot stays empty). */
  datatype Whisper = Whisper(
    typeName: string,
    typeEnum: WhisperType,
    data: string,
    whisperReceived: Option<WhisperReceivedData>,
    thread: Option<ThreadData>)

  /** The kind a `type` text selects. */
  function KindOf(typeName: string): (r: WhisperType)
    ensures r == WhisperReceived <==> typeName == "whisper_received"
    ensures r == Thread <==> typeName == "thread"
    ensures r == Unknown <==> typeName != "whisper_received" && typeName != "thread"
  {
    if typeName == "whisper_received" then WhisperReceived
    else if typeName == "thread" then Thread
    else Unknown
  }

  /** The payload slots agree with the kind, and the kind with the type text. */
  predicate Consistent(w: Whisper) {
    && w.typeEnum == KindOf(w.typeName)
    && (w.whisperReceived.Some? <==> w.typeEnum == WhisperReceived)
    && (w.thread.Some? <==> w.typeEnum == Thread)
  }

  // ---- member access, as each constructor line does it ----

  /** `json.SelectToken(key).ToString()`: fails when the member is absent. */
  function Text(j: Json, key: string): (r: Decoded<string>)
    ensures Lookup(j, key).None? ==> r == Err(MissingField(key))
    ensures Lookup(j, key).Some? ==> r == Ok(TokenText(Lookup(j, key).value))
  {
    match Lookup(j, key)
    case None => Err(MissingField(key))
    case Some(t) => Ok(TokenText(t))
  }

  /** `json.SelectToken(key)?.ToString()`: absent gives null, never a failure. */
  function OptionalText(j: Json, key: string): (r: Option<string>)
    ensures r.Some? <==> Lookup(j, key).Some?
    ensures r.Some? ==> r.value == TokenText(Lookup(j, key).value)
  {
    match Lookup(j, key)
    case None => None
    case Some(t) => Some(TokenText(t))
  }

  /** The token handed to a nested constructor. An absent member passes null,
      and the nested constructor throws on its first lookup. */
  function Member(j: Json, key: string): (r: Decoded<Json>)
    ensures Lookup(j, key).None? ==> r == Err(MissingField(key))
    ensures Lookup(j, key).Some? ==> r == Ok(Lookup(j, key).value)
  {
    match Lookup(j, key)
    case None => Err(MissingField(key))
    case Some(t) => Ok(t)
  }

  /** `long.Parse(json.SelectToken(key).ToString())`. */
  function Long(j: Json, key: string): (r: Decoded<int64>)
    ensures Lookup(j, key).None? ==> r == Err(MissingField(key))
    ensures Text(j, key).Ok? && !IsIntegerText(Text(j, key).value) ==> r == Err(NotAnInteger(key))
    ensures (&& Text(j, key).Ok? && IsIntegerText(Text(j, key).value)
             && !(MIN_INT64 <= IntegerValue(Text(j, key).value).value <= MAX_INT64))
            ==> r == Err(IntegerOverflow(key))
    ensures (&& Text(j, key).Ok? && IsIntegerText(Text(j, key).value)
             && MIN_INT64 <= IntegerValue(Text(j, key).value).value <= MAX_INT64)
            ==> r.Ok?
    ensures r.Ok? ==> Text(j, key).Ok? && IntegerValue(Text(j, key).value) == Some(r.value as int)
  {
    var s :- Text(j, key);
    match ParseLong(s)
    case Ok(n) => Ok(n)
    case Err(BadFormat) => Err(NotAnInteger(key))
    case Err(Overflow) => Err(IntegerOverflow(key))
  }

  /** `int.Parse(json.SelectToken(key).ToString())`. */
  function Int(j: Json, key: string): (r: Decoded<int32>)
    ensures Lookup(j, key).None? ==> r == Err(MissingField(key))
    ensures Text(j, key).Ok? && !IsIntegerText(Text(j, key).value) ==> r == Err(NotAnInteger(key))
    ensures (&& Text(j, key).Ok? && IsIntegerText(Text(j, key).value)
             && !(MIN_INT32 <= IntegerValue(Text(j, key).value).value <= MAX_INT32))
            ==> r == Err(IntegerOverflow(key))
    ensures (&& Text(j, key).Ok? && IsIntegerText(Text(j, key).value)
             && MIN_INT32 <= IntegerValue(Text(j, key).value).value <= MAX_INT32)
            ==> r.Ok?
    ensures r.Ok? ==> Text(j, key).Ok? && IntegerValue(Text(j, key).value) == Some(r.value as int)
  {
    var s :- Text(j, key);
    match ParseInt(s)
    case Ok(n) => Ok(n)
    case Err(BadFormat) => Err(NotAnInteger(key))
    case Err(Overflow) => Err(IntegerOverflow(key))
  }

  /** `bool.Parse(json.SelectToken(key).ToString())`. */
  function Bool(j: Json, key: string): (r: Decoded<bool>)
    ensures Lookup(j, key).None? ==> r == Err(MissingField(key))
    ensures Text(j, key).Ok? ==> && (r == Ok(true) <==> LowerText(Text(j, key).value) == "true")
                                 && (r == Ok(false) <==> LowerText(Text(j, key).value) == "false")
    ensures (Text(j, key).Ok? && LowerText(Text(j, key).value) != "true" && LowerText(Text(j, key).value) != "false")
            ==> r == Err(NotABoolean(key))
  {
    var s :- Text(j, key);
    match ParseBool(s)
    case Some(b) => Ok(b)
    case None => Err(NotABoolean(key))
  }

  /** The tokens `foreach (var x in json.SelectToken(key))` visits: an array's
      elements; none for a scalar token (it has no children); a failure when
      the member is absent (the loop dereferences null). */
  function Elements(j: Json, key: string): (r: Decoded<seq<Json>>)
    ensures Lookup(j, key).None? ==> r == Err(MissingField(key))
    ensures Lookup(j, key).Some? ==>
              match Lookup(j, key).value
              case JArray(items) => r == Ok(items)
              case JObject(_) => r == Err(NotAnArray(key))
              case _ => r == Ok([])
  {
    match Lookup(j, key)
    case None => Err(MissingField(key))
    case Some(JArray(items)) => Ok(items)
    case Some(JObject(_)) => Err(NotAnArray(key))
    case Some(_) => Ok([])
  }

  /** The object has every one of the listed members. */
  predicate HasKeys(j: Json, keys: seq<string>) {
    forall i | 0 <= i < |keys| :: Lookup(j, keys[i]).Some?
  }

  /** Five members that are present make `HasKeys` of their list. */
  lemma FiveKeysPresent(j: Json, k0: string, k1: string, k2: string, k3: string, k4: string)
    requires Lookup(j, k0).Some? && Lookup(j, k1).Some? && Lookup(j, k2).Some?
    requires Lookup(j, k3).Some? && Lookup(j, k4).Some?
    ensures HasKeys(j, [k0, k1, k2, k3, k4])
  {
  }

  // ---- one decoder per constructor ----

  /** `new Badge(json)`: both members optional, so a badge never fails. */
  function DecodeBadge(j: Json): (r: Badge)
    ensures r.id.Some? <==> Lookup(j, "id").Some?
    ensures r.id.Some? ==> r.id.value == TokenText(Lookup(j, "id").value)
    ensures r.version.Some? <==> Lookup(j, "version").Some?
    ensures r.version.Some? ==> r.version.value == TokenText(Lookup(j, "version").value)
  {
    Badge(OptionalText(j, "id"), OptionalText(j, "version"))
  }

  /** `new EmoteObj(json)`: id, start and end, each through int.Parse. No
      relation between start and end is checked. */
  function DecodeEmote(j: Json): (r: Decoded<Emote>)
    ensures r.Ok? <==> Int(j, "id").Ok? && Int(j, "start").Ok? && Int(j, "end").Ok?
    ensures r.Ok? ==> HasKeys(j, ["id", "start", "end"])
    ensures Int(j, "id").Err? ==> r == Err(Int(j, "id").error)
    ensures Int(j, "id").Ok? && Int(j, "start").Err? ==> r == Err(Int(j, "start").error)
    ensures Int(j, "id").Ok? && Int(j, "start").Ok? && Int(j, "end").Err? ==> r == Err(Int(j, "end").error)
    ensures r.Ok? ==> Int(j, "id") == Ok(r.value.id) && Int(j, "start") == Ok(r.value.start) && Int(j, "end") == Ok(r.value.end)
  {
    var id :- Int(j, "id");
    var start :- Int(j, "start");
    var end :- Int(j, "end");
    Ok(Emote(id, start, end))
  }

  /** The badge list: one badge per token, in order. */
  function DecodeBadges(items: seq<Json>): (r: seq<Badge>)
    ensures |r| == |items|
    ensures forall i | 0 <= i < |items| :: r[i] == DecodeBadge(items[i])
  {
    seq(|items|, i requires 0 <= i < |items| => DecodeBadge(items[i]))
  }

  /** The position of the first token `decode` fails on; |items| when it
      fails on none. */
  function FirstFailure<T>(decode: Json -> Decoded<T>, items: seq<Json>): (k: nat)
    ensures k <= |items|
    ensures forall i | 0 <= i < k :: decode(items[i]).Ok?
    ensures k < |items| ==> decode(items[k]).Err?
  {
    if items == [] || decode(items[0]).Err? then 0
    else
      var k := FirstFailure(decode, items[1..]);
      assert forall i | 1 <= i <= k :: items[i] == items[1..][i - 1];
      1 + k
  }

  /** A `foreach` that adds `decode` of every token to a list, in order; the
      first token it fails on fails the whole loop with its error. */
  function DecodeEach<T>(decode: Json -> Decoded<T>, items: seq<Json>): (r: Decoded<seq<T>>)
    ensures r.Ok? <==> FirstFailure(decode, items) == |items|
    ensures r.Ok? ==> |r.value| == |items|
    ensures r.Ok? ==> forall i | 0 <= i < |items| :: decode(items[i]) == Ok(r.value[i])
    ensures r.Err? ==> decode(items[FirstFailure(decode, items)]) == Err(r.error)
  {
    if items == [] then Ok([])
    else
      var first :- decode(items[0]);
      match DecodeEach(decode, items[1..])
      case Err(e) =>
        assert items[1..][FirstFailure(decode, items[1..])] == items[FirstFailure(decode, items)];
        Err(e)
      case Ok(rest) =>
        assert forall i | 1 <= i < |items| :: items[i] == items[1..][i - 1];
        Ok([first] + rest)
  }

  /** A prefix of tokens that all decode, followed by one that fails, decides
      `DecodeEach`: it fails with that token's error. */
  lemma DecodeEachStopsAt<T>(decode: Json -> Decoded<T>, items: seq<Json>, i: nat)
    requires i < |items|
    requires forall k | 0 <= k < i :: decode(items[k]).Ok?
    requires decode(items[i]).Err?
    ensures DecodeEach(decode, items) == Err(decode(items[i]).error)
  {
  }

  /** When every token decodes to the matching element of `values`,
      `DecodeEach` gives exactly `values`. */
  lemma DecodeEachAll<T>(decode: Json -> Decoded<T>, items: seq<Json>, values: seq<T>)
    requires |values| == |items|
    requires forall k | 0 <= k < |items| :: decode(items[k]) == Ok(values[k])
    ensures DecodeEach(decode, items) == Ok(values)
  {
    var r := DecodeEach(decode, items);
    assert r.Ok?;
    forall i | 0 <= i < |items| ensures r.value[i] == values[i] {
      assert decode(items[i]) == Ok(r.value[i]);
    }
    assert r.value == values;
  }

  /** The emote list: one emote per token, in order; the first token that
      fails to decode fails the whole list with its error. */
  function DecodeEmotes(items: seq<Json>): (r: Decoded<seq<Emote>>)
    ensures r.Ok? <==> FirstFailure(DecodeEmote, items) == |items|
    ensures r.Ok? ==> |r.value| == |items|
    ensures r.Ok? ==> forall i | 0 <= i < |items| :: DecodeEmote(items[i]) == Ok(r.value[i])
    ensures r.Err? ==> DecodeEmote(items[FirstFailure(DecodeEmote, items)]) == Err(r.error)
  {
    DecodeEach(DecodeEmote, items)
  }

  /** `new TagsObj(json)`. The display name is read from `login`, like the
      login itself; a `display_name` member is never consulted. */
  function DecodeTags(j: Json): (r: Decoded<Tags>)
    ensures r.Ok? ==> r.value.displayName == r.value.login == OptionalText(j, "login")
    ensures r.Ok? ==> r.value.color == OptionalText(j, "color") && r.value.userType == OptionalText(j, "user_type")
    ensures r.Ok? <==> && Elements(j, "emotes").Ok?
                       && DecodeEmotes(Elements(j, "emotes").value).Ok?
                       && Elements(j, "badges").Ok?
    ensures r.Ok? ==> HasKeys(j, ["emotes", "badges"])
    ensures Elements(j, "emotes").Err? ==> r == Err(Elements(j, "emotes").error)
    ensures (Elements(j, "emotes").Ok? && DecodeEmotes(Elements(j, "emotes").value).Err?)
            ==> r == Err(DecodeEmotes(Elements(j, "emotes").value).error)
    ensures (&& Elements(j, "emotes").Ok? && DecodeEmotes(Elements(j, "emotes").value).Ok?
             && Elements(j, "badges").Err?)
            ==> r == Err(Elements(j, "badges").error)
    ensures r.Ok? ==> && Ok(r.value.emotes) == DecodeEmotes(Elements(j, "emotes").value)
                      && |r.value.emotes| == |Elements(j, "emotes").value|
                      && r.value.badges == DecodeBadges(Elements(j, "badges").value)
  {
    var login := OptionalText(j, "login");
    var displayName := OptionalText(j, "login");
    var color := OptionalText(j, "color");
    var userType := OptionalText(j, "user_type");
    var emoteTokens :- Elements(j, "emotes");
    var emotes :- DecodeEmotes(emoteTokens);
    var badgeTokens :- Elements(j, "badges");
    Ok(Tags(login, displayName, color, userType, emotes, DecodeBadges(badgeTokens)))
  }

  /** `new RecipientObj(json)`: the id is required, the display name comes
      from `display_name`, the badge list is required. */
  function DecodeRecipient(j: Json): (r: Decoded<Recipient>)
    ensures r.Ok? <==> Text(j, "id").Ok? && Elements(j, "badges").Ok?
    ensures r.Ok? ==> HasKeys(j, ["id", "badges"])
    ensures Text(j, "id").Err? ==> r == Err(Text(j, "id").error)
    ensures Text(j, "id").Ok? && Elements(j, "badges").Err? ==> r == Err(Elements(j, "badges").error)
    ensures r.Ok? ==> && Text(j, "id") == Ok(r.value.id)
                      && r.value.username == OptionalText(j, "username")
                      && r.value.displayName == OptionalText(j, "display_name")
                      && r.value.color == OptionalText(j, "color")
                      && r.value.userType == OptionalText(j, "user_type")
                      && r.value.badges == DecodeBadges(Elements(j, "badges").value)
  {
    var id :- Text(j, "id");
    var username := OptionalText(j, "username");
    var displayName := OptionalText(j, "display_name");
    var color := OptionalText(j, "color");
    var userType := OptionalText(j, "user_type");
    var badgeTokens :- Elements(j, "badges");
    Ok(Recipient(id, username, displayName, color, userType, DecodeBadges(badgeTokens)))
  }

  /** `new DataObjWhisperReceived(json)`. */
  function DecodeWhisperReceived(j: Json): (r: Decoded<WhisperReceivedData>)
    ensures r.Ok? <==> && Text(j, "id").Ok? && Long(j, "sent_ts").Ok? && Text(j, "from_id").Ok?
                       && Member(j, "tags").Ok? && DecodeTags(Member(j, "tags").value).Ok?
                       && Member(j, "recipient").Ok? && DecodeRecipient(Member(j, "recipient").value).Ok?
    ensures r.Ok? ==> HasKeys(j, ["id", "sent_ts", "from_id", "tags", "recipient"])
    ensures Text(j, "id").Err? ==> r == Err(Text(j, "id").error)
    ensures Text(j, "id").Ok? && Long(j, "sent_ts").Err? ==> r == Err(Long(j, "sent_ts").error)
    ensures (Text(j, "id").Ok? && Long(j, "sent_ts").Ok? && Text(j, "from_id").Err?)
            ==> r == Err(Text(j, "from_id").error)
    ensures (Text(j, "id").Ok? && Long(j, "sent_ts").Ok? && Text(j, "from_id").Ok? && Member(j, "tags").Err?)
            ==> r == Err(Member(j, "tags").error)
    ensures (&& Text(j, "id").Ok? && Long(j, "sent_ts").Ok? && Text(j, "from_id").Ok? && Member(j, "tags").Ok?
             && DecodeTags(Member(j, "tags").value).Err?)
            ==> r == Err(DecodeTags(Member(j, "tags").value).error)
    ensures (&& Text(j, "id").Ok? && Long(j, "sent_ts").Ok? && Text(j, "from_id").Ok? && Member(j, "tags").Ok?
             && DecodeTags(Member(j, "tags").value).Ok? && Member(j, "recipient").Err?)
            ==> r == Err(Member(j, "recipient").error)
    ensures (&& Text(j, "id").Ok? && Long(j, "sent_ts").Ok? && Text(j, "from_id").Ok? && Member(j, "tags").Ok?
             && DecodeTags(Member(j, "tags").value).Ok? && Member(j, "recipient").Ok?
             && DecodeRecipient(Member(j, "recipient").value).Err?)
            ==> r == Err(DecodeRecipient(Member(j, "recipient").value).error)
    ensures r.Ok? ==> && Text(j, "id") == Ok(r.value.id)
                      && Long(j, "sent_ts") == Ok(r.value.sentTs)
                      && Text(j, "from_id") == Ok(r.value.fromId)
    ensures r.Ok? ==> && r.value.threadId == OptionalText(j, "thread_id")
                      && r.value.body == OptionalText(j, "body")
                      && r.value.nonce == OptionalText(j, "nonce")
                      && Ok(r.value.tags) == DecodeTags(Member(j, "tags").value)
                      && Ok(r.value.recipient) == DecodeRecipient(Member(j, "recipient").value)
  {
    var id :- Text(j, "id");
    var threadId := OptionalText(j, "thread_id");
    var body := OptionalText(j, "body");
    var sentTs :- Long(j, "sent_ts");
    var fromId :- Text(j, "from_id");
    var tagsToken :- Member(j, "tags");
    var tags :- DecodeTags(tagsToken);
    var recipientToken :- Member(j, "recipient");
    FiveKeysPresent(j, "id", "sent_ts", "from_id", "tags", "recipient");
    var recipient :- DecodeRecipient(recipientToken);
    var nonce := OptionalText(j, "nonce");
    Ok(WhisperReceivedData(id, threadId, body, sentTs, fromId, tags, recipient, nonce))
  }

  /** `new SpamInfoObj(json)`. */
  function DecodeSpamInfo(j: Json): (r: Decoded<SpamInfo>)
    ensures r.Ok? <==> Text(j, "likelihood").Ok? && Long(j, "last_marked_not_spam").Ok?
    ensures r.Ok? ==> HasKeys(j, ["likelihood", "last_marked_not_spam"])
    ensures Text(j, "likelihood").Err? ==> r == Err(Text(j, "likelihood").error)
    ensures (Text(j, "likelihood").Ok? && Long(j, "last_marked_not_spam").Err?)
            ==> r == Err(Long(j, "last_marked_not_spam").error)
    ensures r.Ok? ==> && Text(j, "likelihood") == Ok(r.value.likelihood)
                      && Long(j, "last_marked_not_spam") == Ok(r.value.lastMarkedNotSpam)
  {
    var likelihood :- Text(j, "likelihood");
    var lastMarkedNotSpam :- Long(j, "last_marked_not_spam");
    Ok(SpamInfo(likelihood, lastMarkedNotSpam))
  }

  /** `new DataObjThread(json)`. */
  function DecodeThread(j: Json): (r: Decoded<ThreadData>)
    ensures r.Ok? <==> && Text(j, "id").Ok? && Long(j, "last_read").Ok?
                       && Bool(j, "archived").Ok? && Bool(j, "muted").Ok?
                       && Member(j, "spam_info").Ok? && DecodeSpamInfo(Member(j, "spam_info").value).Ok?
    ensures r.Ok? ==> HasKeys(j, ["id", "last_read", "archived", "muted", "spam_info"])
    ensures Text(j, "id").Err? ==> r == Err(Text(j, "id").error)
    ensures Text(j, "id").Ok? && Long(j, "last_read").Err? ==> r == Err(Long(j, "last_read").error)
    ensures (Text(j, "id").Ok? && Long(j, "last_read").Ok? && Bool(j, "archived").Err?)
            ==> r == Err(Bool(j, "archived").error)
    ensures (Text(j, "id").Ok? && Long(j, "last_read").Ok? && Bool(j, "archived").Ok? && Bool(j, "muted").Err?)
            ==> r == Err(Bool(j, "muted").error)
    ensures (&& Text(j, "id").Ok? && Long(j, "last_read").Ok? && Bool(j, "archived").Ok? && Bool(j, "muted").Ok?
             && Member(j, "spam_info").Err?)
            ==> r == Err(Member(j, "spam_info").error)
    ensures (&& Text(j, "id").Ok? && Long(j, "last_read").Ok? && Bool(j, "archived").Ok? && Bool(j, "muted").Ok?
             && Member(j, "spam_info").Ok? && DecodeSpamInfo(Member(j, "spam_info").value).Err?)
            ==> r == Err(DecodeSpamInfo(Member(j, "spam_info").value).error)
    ensures r.Ok? ==> && Text(j, "id") == Ok(r.value.id)
                      && Long(j, "last_read") == Ok(r.value.lastRead)
                      && Bool(j, "archived") == Ok(r.value.archived)
                      && Bool(j, "muted") == Ok(r.value.muted)
                      && Ok(r.value.spamInfo) == DecodeSpamInfo(Member(j, "spam_info").value)
  {
    var id :- Text(j, "id");
    var lastRead :- Long(j, "last_read");
    var archived :- Bool(j, "archived");
    var muted :- Bool(j, "muted");
    var spamToken :- Member(j, "spam_info");
    FiveKeysPresent(j, "id", "last_read", "archived", "muted", "spam_info");
    var spamInfo :- DecodeSpamInfo(spamToken);
    Ok(ThreadData(id, lastRead, archived, muted, spamInfo))
  }

  /** `new Whisper(jsonStr)` after the text has been parsed into `root`: read
      `type` and `data`, then decode `data_object` as the payload the type
      names; any other type is Unknown and reads nothing more. */
  function DecodeWhisper(root: Json): (r: Decoded<Whisper>)
    ensures Lookup(root, "type").None? ==> r == Err(MissingField("type"))
    ensures Lookup(root, "type").Some? && Lookup(root, "data").None? ==> r == Err(MissingField("data"))
    ensures r.Ok? ==> && Consistent(r.value)
                      && Ok(r.value.typeName) == Text(root, "type")
                      && Ok(r.value.data) == Text(root, "data")
    ensures r.Ok? && r.value.typeEnum == WhisperReceived ==>
              && Member(root, "data_object").Ok?
              && Ok(r.value.whisperReceived.value) == DecodeWhisperReceived(Member(root, "data_object").value)
    ensures r.Ok? && r.value.typeEnum == Thread ==>
              && Member(root, "data_object").Ok?
              && Ok(r.value.thread.value) == DecodeThread(Member(root, "data_object").value)
    ensures (&& Text(root, "type").Ok? && Text(root, "data").Ok?
             && KindOf(Text(root, "type").value) != Unknown && Lookup(root, "data_object").None?)
            ==> r == Err(MissingField("data_object"))
    ensures (&& Text(root, "type").Ok? && Text(root, "data").Ok?
             && KindOf(Text(root, "type").value) == WhisperReceived && Member(root, "data_object").Ok?
             && DecodeWhisperReceived(Member(root, "data_object").value).Err?)
            ==> r == Err(DecodeWhisperReceived(Member(root, "data_object").value).error)
    ensures (&& Text(root, "type").Ok? && Text(root, "data").Ok?
             && KindOf(Text(root, "type").value) == Thread && Member(root, "data_object").Ok?
             && DecodeThread(Member(root, "data_object").value).Err?)
            ==> r == Err(DecodeThread(Member(root, "data_object").value).error)
    ensures Text(root, "type").Ok? && Text(root, "data").Ok? && KindOf(Text(root, "type").value) == Unknown ==>
              r.Ok? && r.value.whisperReceived.None? && r.value.thread.None?
  {
    var typeName :- Text(root, "type");
    var data :- Text(root, "data");
    match KindOf(typeName)
    case WhisperReceived =>
      var payloadToken :- Member(root, "data_object");
      var payload :- DecodeWhisperReceived(payloadToken);
      Ok(Whisper(typeName, WhisperReceived, data, Some(payload), None))
    case Thread =>
      var payloadToken :- Member(root, "data_object");
      var payload :- DecodeThread(payloadToken);
      Ok(Whisper(typeName, Thread, data, None, Some(payload)))
    case Unknown =>
      Ok(Whisper(typeName, Unknown, data, None, None))
  }
}
