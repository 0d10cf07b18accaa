/**
 * The wire shape of a whisper message, written out from the records: every
 * string as a JSON string, every number as a JSON integer, every flag as a
 * JSON boolean, every absent optional field as an absent member. Decoding
 * what this writes gives back the record, for every record the decoder can
 * produce; the tags' display name must equal the login, since the decoder
 * copies it from there.
 */
module WhisperEncoding {
  import opened Wrappers
  import opened JsonTree
  import opened Decimal
  import opened Parsing
  import opened WhisperMessage

  /** `m` with the member `key` holding `o`'s text, when `o` is present. */
  function Put(m: map<string, Json>, key: string, o: Option<string>): map<string, Json> {
    match o
    case None => m
    case Some(s) => m[key := JString(s)]
  }

  function EncodeBadge(b: Badge): Json {
    JObject(Put(Put(map[], "id", b.id), "version", b.version))
  }

  function EncodeBadges(badges: seq<Badge>): seq<Json> {
    seq(|badges|, i requires 0 <= i < |badges| => EncodeBadge(badges[i]))
  }

  function EncodeEmote(e: Emote): Json {
    JObject(map["id" := JInteger(e.id as int), "start" := JInteger(e.start as int), "end" := JInteger(e.end as int)])
  }

  function EncodeEmotes(emotes: seq<Emote>): seq<Json> {
    seq(|emotes|, i requires 0 <= i < |emotes| => EncodeEmote(emotes[i]))
  }

  function EncodeTags(t: Tags): Json {
    var lists := map["emotes" := JArray(EncodeEmotes(t.emotes)), "badges" := JArray(EncodeBadges(t.badges))];
    JObject(Put(Put(Put(lists, "login", t.login), "color", t.color), "user_type", t.userType))
  }

  function EncodeRecipient(r: Recipient): Json {
    JObject(Put(Put(Put(Put(RecipientRequired(r), "username", r.username), "display_name", r.displayName),
                    "color", r.color), "user_type", r.userType))
  }

  function EncodeWhisperReceived(d: WhisperReceivedData): Json {
    JObject(Put(Put(Put(ReceivedRequired(d), "thread_id", d.threadId), "body", d.body), "nonce", d.nonce))
  }

  function EncodeSpamInfo(s: SpamInfo): Json {
    JObject(map["likelihood" := JString(s.likelihood), "last_marked_not_spam" := JInteger(s.lastMarkedNotSpam as int)])
  }

  function EncodeThread(t: ThreadData): Json {
    JObject(map[
      "id" := JString(t.id),
      "last_read" := JInteger(t.lastRead as int),
      "archived" := JBool(t.archived),
      "muted" := JBool(t.muted),
      "spam_info" := EncodeSpamInfo(t.spamInfo)])
  }

  function EncodeWhisper(w: Whisper): Json {
    var head := map["type" := JString(w.typeName), "data" := JString(w.data)];
    match (w.whisperReceived, w.thread)
    case (Some(d), _) => JObject(head["data_object" := EncodeWhisperReceived(d)])
    case (None, Some(t)) => JObject(head["data_object" := EncodeThread(t)])
    case (None, None) => JObject(head)
  }

  /** What the decoder can produce: a consistent message whose tags show the
      login as display name. */
  predicate Decodable(w: Whisper) {
    && Consistent(w)
    && (w.whisperReceived.Some? ==> w.whisperReceived.value.tags.displayName == w.whisperReceived.value.tags.login)
  }

  lemma EmoteRoundTrip(e: Emote)
    ensures DecodeEmote(EncodeEmote(e)) == Ok(e)
  {
    IntRoundTrip(e.id);
    IntRoundTrip(e.start);
    IntRoundTrip(e.end);
  }

  lemma EmotesRoundTrip(emotes: seq<Emote>)
    ensures DecodeEmotes(EncodeEmotes(emotes)) == Ok(emotes)
  {
    var items := EncodeEmotes(emotes);
    forall i | 0 <= i < |items|
      ensures DecodeEmote(items[i]) == Ok(emotes[i])
    {
      EmoteRoundTrip(emotes[i]);
    }
    assert DecodeEmotes(items).value == emotes;
  }

  lemma BadgeRoundTrip(b: Badge)
    ensures DecodeBadge(EncodeBadge(b)) == b
  {
  }

  lemma BadgesRoundTrip(badges: seq<Badge>)
    ensures DecodeBadges(EncodeBadges(badges)) == badges
  {
    var items := EncodeBadges(badges);
    forall i | 0 <= i < |items|
      ensures DecodeBadges(items)[i] == badges[i]
    {
      BadgeRoundTrip(badges[i]);
    }
  }

  lemma TagsRoundTrip(t: Tags)
    requires t.displayName == t.login
    ensures DecodeTags(EncodeTags(t)) == Ok(t)
  {
    var j := EncodeTags(t);
    assert Elements(j, "emotes") == Ok(EncodeEmotes(t.emotes));
    assert Elements(j, "badges") == Ok(EncodeBadges(t.badges));
    assert OptionalText(j, "login") == t.login;
    assert OptionalText(j, "color") == t.color;
    assert OptionalText(j, "user_type") == t.userType;
    EmotesRoundTrip(t.emotes);
    BadgesRoundTrip(t.badges);
  }

  /** The members EncodeRecipient writes unconditionally. */
  function RecipientRequired(r: Recipient): map<string, Json> {
    map["id" := JString(r.id), "badges" := JArray(EncodeBadges(r.badges))]
  }

  lemma RecipientRequiredEncoded(r: Recipient, k: string)
    requires k in RecipientRequired(r)
    ensures Lookup(EncodeRecipient(r), k) == Some(RecipientRequired(r)[k])
  {
    var m0 := RecipientRequired(r);
    var m1 := Put(m0, "username", r.username);
    var m2 := Put(m1, "display_name", r.displayName);
    var m3 := Put(m2, "color", r.color);
    PutOther(m3, "user_type", r.userType, k);
    PutOther(m2, "color", r.color, k);
    PutOther(m1, "display_name", r.displayName, k);
    PutOther(m0, "username", r.username, k);
  }

  lemma RecipientOptionalEncoded(r: Recipient)
    ensures var j := EncodeRecipient(r);
      && OptionalText(j, "username") == r.username
      && OptionalText(j, "display_name") == r.displayName
      && OptionalText(j, "color") == r.color
      && OptionalText(j, "user_type") == r.userType
  {
    var m0 := RecipientRequired(r);
    var m1 := Put(m0, "username", r.username);
    var m2 := Put(m1, "display_name", r.displayName);
    var m3 := Put(m2, "color", r.color);
    PutSame(m0, "username", r.username);
    PutOther(m1, "display_name", r.displayName, "username");
    PutOther(m2, "color", r.color, "username");
    PutOther(m3, "user_type", r.userType, "username");
    PutSame(m1, "display_name", r.displayName);
    PutOther(m2, "color", r.color, "display_name");
    PutOther(m3, "user_type", r.userType, "display_name");
    PutSame(m2, "color", r.color);
    PutOther(m3, "user_type", r.userType, "color");
    PutSame(m3, "user_type", r.userType);
  }

  lemma RecipientMembers(r: Recipient)
    ensures var j := EncodeRecipient(r);
      && Text(j, "id") == Ok(r.id)
      && Elements(j, "badges") == Ok(EncodeBadges(r.badges))
      && OptionalText(j, "username") == r.username
      && OptionalText(j, "display_name") == r.displayName
      && OptionalText(j, "color") == r.color
      && OptionalText(j, "user_type") == r.userType
  {
    RecipientRequiredEncoded(r, "id");
    RecipientRequiredEncoded(r, "badges");
    RecipientOptionalEncoded(r);
  }

  lemma RecipientRoundTrip(r: Recipient)
    ensures DecodeRecipient(EncodeRecipient(r)) == Ok(r)
  {
    RecipientMembers(r);
    BadgesRoundTrip(r.badges);
  }

  /** Put leaves every other member as it was. */
  lemma PutOther(m: map<string, Json>, key: string, o: Option<string>, other: string)
    requires other != key
    ensures Lookup(JObject(Put(m, key, o)), other) == Lookup(JObject(m), other)
  {
  }

  /** A member Put adds reads back as the optional text it was given. */
  lemma PutSame(m: map<string, Json>, key: string, o: Option<string>)
    requires key !in m
    ensures OptionalText(JObject(Put(m, key, o)), key) == o
  {
  }

  /** The members EncodeWhisperReceived writes unconditionally. */
  function ReceivedRequired(d: WhisperReceivedData): map<string, Json> {
    map[
      "id" := JString(d.id),
      "sent_ts" := JInteger(d.sentTs as int),
      "from_id" := JString(d.fromId),
      "tags" := EncodeTags(d.tags),
      "recipient" := EncodeRecipient(d.recipient)]
  }

  lemma ReceivedOptionalEncoded(d: WhisperReceivedData)
    ensures var j := EncodeWhisperReceived(d);
      && OptionalText(j, "thread_id") == d.threadId
      && OptionalText(j, "body") == d.body
      && OptionalText(j, "nonce") == d.nonce
  {
    var m0 := ReceivedRequired(d);
    var m1 := Put(m0, "thread_id", d.threadId);
    var m2 := Put(m1, "body", d.body);
    PutSame(m0, "thread_id", d.threadId);
    PutOther(m1, "body", d.body, "thread_id");
    PutOther(m2, "nonce", d.nonce, "thread_id");
    PutSame(m1, "body", d.body);
    PutOther(m2, "nonce", d.nonce, "body");
    PutSame(m2, "nonce", d.nonce);
  }

  lemma ReceivedRequiredEncoded(d: WhisperReceivedData, k: string)
    requires k in ReceivedRequired(d)
    ensures Lookup(EncodeWhisperReceived(d), k) == Some(ReceivedRequired(d)[k])
  {
    var m0 := ReceivedRequired(d);
    var m1 := Put(m0, "thread_id", d.threadId);
    var m2 := Put(m1, "body", d.body);
    PutOther(m2, "nonce", d.nonce, k);
    PutOther(m1, "body", d.body, k);
    PutOther(m0, "thread_id", d.threadId, k);
  }

  lemma ReceivedMembers(d: WhisperReceivedData)
    ensures var j := EncodeWhisperReceived(d);
      && Text(j, "id") == Ok(d.id)
      && Text(j, "sent_ts") == Ok(DecimalText(d.sentTs as int))
      && Text(j, "from_id") == Ok(d.fromId)
      && Member(j, "tags") == Ok(EncodeTags(d.tags))
      && Member(j, "recipient") == Ok(EncodeRecipient(d.recipient))
      && OptionalText(j, "thread_id") == d.threadId
      && OptionalText(j, "body") == d.body
      && OptionalText(j, "nonce") == d.nonce
  {
    ReceivedRequiredEncoded(d, "id");
    ReceivedRequiredEncoded(d, "sent_ts");
    ReceivedRequiredEncoded(d, "from_id");
    ReceivedRequiredEncoded(d, "tags");
    ReceivedRequiredEncoded(d, "recipient");
    ReceivedOptionalEncoded(d);
  }

  lemma WhisperReceivedRoundTrip(d: WhisperReceivedData)
    requires d.tags.displayName == d.tags.login
    ensures DecodeWhisperReceived(EncodeWhisperReceived(d)) == Ok(d)
  {
    var j := EncodeWhisperReceived(d);
    ReceivedMembers(d);
    LongRoundTrip(d.sentTs);
    assert Long(j, "sent_ts") == Ok(d.sentTs);
    TagsRoundTrip(d.tags);
    RecipientRoundTrip(d.recipient);
  }

  lemma ThreadMembers(t: ThreadData)
    ensures var j := EncodeThread(t);
      && Text(j, "id") == Ok(t.id)
      && Text(j, "last_read") == Ok(DecimalText(t.lastRead as int))
      && Text(j, "archived") == Ok(if t.archived then "True" else "False")
      && Text(j, "muted") == Ok(if t.muted then "True" else "False")
      && Member(j, "spam_info") == Ok(EncodeSpamInfo(t.spamInfo))
  {
  }

  lemma ThreadRoundTrip(t: ThreadData)
    ensures DecodeThread(EncodeThread(t)) == Ok(t)
  {
    var j := EncodeThread(t);
    ThreadMembers(t);
    LongRoundTrip(t.lastRead);
    assert Long(j, "last_read") == Ok(t.lastRead);
    BoolRoundTrip(t.archived);
    assert Bool(j, "archived") == Ok(t.archived);
    BoolRoundTrip(t.muted);
    assert Bool(j, "muted") == Ok(t.muted);
    SpamInfoRoundTrip(t.spamInfo);
  }

  lemma SpamInfoRoundTrip(s: SpamInfo)
    ensures DecodeSpamInfo(EncodeSpamInfo(s)) == Ok(s)
  {
    LongRoundTrip(s.lastMarkedNotSpam);
  }

  /** Every message the decoder can produce is decoded back from its wire shape. */
  lemma WhisperRoundTrip(w: Whisper)
    requires Decodable(w)
    ensures DecodeWhisper(EncodeWhisper(w)) == Ok(w)
  {
    var root := EncodeWhisper(w);
    assert Text(root, "type") == Ok(w.typeName);
    assert Text(root, "data") == Ok(w.data);
    match (w.whisperReceived, w.thread)
    case (Some(d), _) =>
      assert Member(root, "data_object") == Ok(EncodeWhisperReceived(d));
      WhisperReceivedRoundTrip(d);
    case (None, Some(t)) =>
      assert Member(root, "data_object") == Ok(EncodeThread(t));
      ThreadRoundTrip(t);
    case (None, None) =>
  }

  /** And every message the decoder produces is one of those. */
  lemma DecodedIsDecodable(root: Json)
    requires DecodeWhisper(root).Ok?
    ensures Decodable(DecodeWhisper(root).value)
  {
  }
}
