/**
 * What the whisper decoders promise, stated over all JSON trees: which
 * members are optional and which required, the display-name mirroring, the
 * dispatch on `type`, all-or-nothing failure, and a round trip through an
 * encoder that writes each record in the wire shape the decoders read.
 */
module WhisperProperties {
  import opened Wrappers
  import opened JsonTree
  import opened Decimal
  import opened Parsing
  import opened WhisperMessage

  // ---- optional members: absence gives null and never a failure ----

  /** The members `DecodeWhisperReceived` reads other than `key` look the same
      with `key` removed. */
  lemma ReceivedFrame(j: Json, key: string)
    requires key !in ["id", "sent_ts", "from_id", "tags", "recipient"]
    ensures Text(Without(j, key), "id") == Text(j, "id")
    ensures Long(Without(j, key), "sent_ts") == Long(j, "sent_ts")
    ensures Text(Without(j, key), "from_id") == Text(j, "from_id")
    ensures Member(Without(j, key), "tags") == Member(j, "tags")
    ensures Member(Without(j, key), "recipient") == Member(j, "recipient")
  {
    assert Lookup(Without(j, key), "sent_ts") == Lookup(j, "sent_ts");
  }

  /** Removing `thread_id` empties that field and nothing else. */
  lemma ThreadIdOptional(j: Json)
    ensures var r := DecodeWhisperReceived(j);
      DecodeWhisperReceived(Without(j, "thread_id")) == (if r.Ok? then Ok(r.value.(threadId := None)) else r)
  {
    ReceivedFrame(j, "thread_id");
    assert OptionalText(Without(j, "thread_id"), "body") == OptionalText(j, "body");
    assert OptionalText(Without(j, "thread_id"), "nonce") == OptionalText(j, "nonce");
  }

  /** Removing `body` empties that field and nothing else. */
  lemma BodyOptional(j: Json)
    ensures var r := DecodeWhisperReceived(j);
      DecodeWhisperReceived(Without(j, "body")) == (if r.Ok? then Ok(r.value.(body := None)) else r)
  {
    ReceivedFrame(j, "body");
    assert OptionalText(Without(j, "body"), "thread_id") == OptionalText(j, "thread_id");
    assert OptionalText(Without(j, "body"), "nonce") == OptionalText(j, "nonce");
  }

  /** Removing `nonce` empties that field and nothing else. */
  lemma NonceOptional(j: Json)
    ensures var r := DecodeWhisperReceived(j);
      DecodeWhisperReceived(Without(j, "nonce")) == (if r.Ok? then Ok(r.value.(nonce := None)) else r)
  {
    ReceivedFrame(j, "nonce");
    assert OptionalText(Without(j, "nonce"), "thread_id") == OptionalText(j, "thread_id");
    assert OptionalText(Without(j, "nonce"), "body") == OptionalText(j, "body");
  }

  /** The members `DecodeTags` reads look the same with any other member removed. */
  lemma TagsFrame(j: Json, key: string)
    requires key !in ["emotes", "badges"]
    ensures Elements(Without(j, key), "emotes") == Elements(j, "emotes")
    ensures Elements(Without(j, key), "badges") == Elements(j, "badges")
  {
    assert Lookup(Without(j, key), "emotes") == Lookup(j, "emotes");
    assert Lookup(Without(j, key), "badges") == Lookup(j, "badges");
  }

  /** Removing `login` empties both the login and the display name; removing
      `color` or `user_type` empties that field; nothing else changes. */
  lemma TagsOptionalMembers(j: Json)
    ensures var r := DecodeTags(j);
      && DecodeTags(Without(j, "login")) == (if r.Ok? then Ok(r.value.(login := None, displayName := None)) else r)
      && DecodeTags(Without(j, "color")) == (if r.Ok? then Ok(r.value.(color := None)) else r)
      && DecodeTags(Without(j, "user_type")) == (if r.Ok? then Ok(r.value.(userType := None)) else r)
  {
    TagsFrame(j, "login");
    assert OptionalText(Without(j, "login"), "color") == OptionalText(j, "color");
    assert OptionalText(Without(j, "login"), "user_type") == OptionalText(j, "user_type");
    TagsFrame(j, "color");
    assert OptionalText(Without(j, "color"), "login") == OptionalText(j, "login");
    assert OptionalText(Without(j, "color"), "user_type") == OptionalText(j, "user_type");
    TagsFrame(j, "user_type");
    assert OptionalText(Without(j, "user_type"), "login") == OptionalText(j, "login");
    assert OptionalText(Without(j, "user_type"), "color") == OptionalText(j, "color");
  }

  /** The members `DecodeRecipient` must find look the same with any other member removed. */
  lemma RecipientFrame(j: Json, key: string)
    requires key !in ["id", "badges"]
    ensures Text(Without(j, key), "id") == Text(j, "id")
    ensures Elements(Without(j, key), "badges") == Elements(j, "badges")
  {
    assert Lookup(Without(j, key), "id") == Lookup(j, "id");
    assert Lookup(Without(j, key), "badges") == Lookup(j, "badges");
  }

  /** The optional members other than `key` look the same with `key` removed. */
  lemma RecipientOptionalFrame(j: Json, key: string)
    requires key in ["username", "display_name", "color", "user_type"]
    ensures key != "username" ==> OptionalText(Without(j, key), "username") == OptionalText(j, "username")
    ensures key != "display_name" ==> OptionalText(Without(j, key), "display_name") == OptionalText(j, "display_name")
    ensures key != "color" ==> OptionalText(Without(j, key), "color") == OptionalText(j, "color")
    ensures key != "user_type" ==> OptionalText(Without(j, key), "user_type") == OptionalText(j, "user_type")
  {
  }

  /** Removing any of the recipient's optional members empties that field only. */
  lemma RecipientOptionalMembers(j: Json)
    ensures var r := DecodeRecipient(j);
      && DecodeRecipient(Without(j, "username")) == (if r.Ok? then Ok(r.value.(username := None)) else r)
      && DecodeRecipient(Without(j, "display_name")) == (if r.Ok? then Ok(r.value.(displayName := None)) else r)
      && DecodeRecipient(Without(j, "color")) == (if r.Ok? then Ok(r.value.(color := None)) else r)
      && DecodeRecipient(Without(j, "user_type")) == (if r.Ok? then Ok(r.value.(userType := None)) else r)
  {
    RecipientFrame(j, "username");
    RecipientOptionalFrame(j, "username");
    RecipientFrame(j, "display_name");
    RecipientOptionalFrame(j, "display_name");
    RecipientFrame(j, "color");
    RecipientOptionalFrame(j, "color");
    RecipientFrame(j, "user_type");
    RecipientOptionalFrame(j, "user_type");
  }

  /** A badge's members are both optional. */
  lemma BadgeOptionalMembers(j: Json)
    ensures DecodeBadge(Without(j, "id")) == DecodeBadge(j).(id := None)
    ensures DecodeBadge(Without(j, "version")) == DecodeBadge(j).(version := None)
  {
  }

  // ---- required members: absence fails ----

  lemma ReceivedRequiredMembers(j: Json, key: string)
    requires key in ["id", "sent_ts", "from_id", "tags", "recipient"]
    ensures DecodeWhisperReceived(Without(j, key)).Err?
  {
    var keys := ["id", "sent_ts", "from_id", "tags", "recipient"];
    var i :| 0 <= i < |keys| && keys[i] == key;
    assert Lookup(Without(j, key), keys[i]).None?;
  }

  lemma TagsRequiredMembers(j: Json, key: string)
    requires key in ["emotes", "badges"]
    ensures DecodeTags(Without(j, key)).Err?
  {
    var keys := ["emotes", "badges"];
    var i :| 0 <= i < |keys| && keys[i] == key;
    assert Lookup(Without(j, key), keys[i]).None?;
  }

  lemma EmoteRequiredMembers(j: Json, key: string)
    requires key in ["id", "start", "end"]
    ensures DecodeEmote(Without(j, key)).Err?
  {
    var keys := ["id", "start", "end"];
    var i :| 0 <= i < |keys| && keys[i] == key;
    assert Lookup(Without(j, key), keys[i]).None?;
  }

  lemma RecipientRequiredMembers(j: Json, key: string)
    requires key in ["id", "badges"]
    ensures DecodeRecipient(Without(j, key)).Err?
  {
    var keys := ["id", "badges"];
    var i :| 0 <= i < |keys| && keys[i] == key;
    assert Lookup(Without(j, key), keys[i]).None?;
  }

  lemma ThreadRequiredMembers(j: Json, key: string)
    requires key in ["id", "last_read", "archived", "muted", "spam_info"]
    ensures DecodeThread(Without(j, key)).Err?
  {
    var keys := ["id", "last_read", "archived", "muted", "spam_info"];
    var i :| 0 <= i < |keys| && keys[i] == key;
    assert Lookup(Without(j, key), keys[i]).None?;
  }

  lemma SpamInfoRequiredMembers(j: Json, key: string)
    requires key in ["likelihood", "last_marked_not_spam"]
    ensures DecodeSpamInfo(Without(j, key)).Err?
  {
    var keys := ["likelihood", "last_marked_not_spam"];
    var i :| 0 <= i < |keys| && keys[i] == key;
    assert Lookup(Without(j, key), keys[i]).None?;
  }

  // ---- the display-name mirroring ----

  /** The tags' `display_name` member is never read: adding, changing or
      removing it leaves the decoded tags as they were, whose display name is
      the login. The recipient's display name, by contrast, is that member. */
  lemma DisplayNameMirrorsLogin(j: Json, v: Json)
    requires j.JObject?
    ensures DecodeTags(With(j, "display_name", v)) == DecodeTags(j)
    ensures DecodeTags(Without(j, "display_name")) == DecodeTags(j)
    ensures DecodeTags(j).Ok? ==> DecodeTags(j).value.displayName == OptionalText(j, "login")
    ensures DecodeRecipient(With(j, "display_name", v)).Ok? ==>
              DecodeRecipient(With(j, "display_name", v)).value.displayName == Some(TokenText(v))
  {
    var j' := With(j, "display_name", v);
    assert Elements(j', "emotes") == Elements(j, "emotes") by {
      assert Lookup(j', "emotes") == Lookup(j, "emotes");
    }
    assert Elements(j', "badges") == Elements(j, "badges") by {
      assert Lookup(j', "badges") == Lookup(j, "badges");
    }
    assert OptionalText(j', "login") == OptionalText(j, "login");
    assert OptionalText(j', "color") == OptionalText(j, "color");
    assert OptionalText(j', "user_type") == OptionalText(j, "user_type");
    TagsFrame(j, "display_name");
    assert OptionalText(Without(j, "display_name"), "login") == OptionalText(j, "login");
    assert OptionalText(Without(j, "display_name"), "color") == OptionalText(j, "color");
    assert OptionalText(Without(j, "display_name"), "user_type") == OptionalText(j, "user_type");
  }

  // ---- dispatch on `type` ----

  /** A type other than "whisper_received" and "thread" never looks at
      `data_object`: whatever it holds, or its absence, changes nothing. */
  lemma UnknownTypeIgnoresPayload(root: Json, v: Json)
    requires root.JObject?
    requires Text(root, "type").Ok? && KindOf(Text(root, "type").value) == Unknown
    ensures DecodeWhisper(With(root, "data_object", v)) == DecodeWhisper(root)
    ensures DecodeWhisper(Without(root, "data_object")) == DecodeWhisper(root)
  {
  }

  /** The kind, and which payload slot is filled, follow from the type text alone. */
  lemma KindDecidedByTypeText(root1: Json, root2: Json)
    requires DecodeWhisper(root1).Ok? && DecodeWhisper(root2).Ok?
    requires Text(root1, "type") == Text(root2, "type")
    ensures DecodeWhisper(root1).value.typeEnum == DecodeWhisper(root2).value.typeEnum
    ensures DecodeWhisper(root1).value.whisperReceived.Some? == DecodeWhisper(root2).value.whisperReceived.Some?
    ensures DecodeWhisper(root1).value.thread.Some? == DecodeWhisper(root2).value.thread.Some?
  {
  }

  // ---- all-or-nothing failure ----

  /** A whisper_received message fails exactly when its payload does, with the
      payload's error; otherwise it carries that payload and no thread. */
  lemma ReceivedFailureIsWhisperFailure(root: Json)
    requires Text(root, "type") == Ok("whisper_received") && Text(root, "data").Ok?
    requires Member(root, "data_object").Ok?
    ensures var p := DecodeWhisperReceived(Member(root, "data_object").value);
      DecodeWhisper(root) == if p.Err? then Err(p.error)
        else Ok(Whisper("whisper_received", WhisperReceived, Text(root, "data").value, Some(p.value), None))
  {
  }

  /** A thread message fails exactly when its payload does, with the payload's
      error; otherwise it carries that payload and no whisper. */
  lemma ThreadFailureIsWhisperFailure(root: Json)
    requires Text(root, "type") == Ok("thread") && Text(root, "data").Ok?
    requires Member(root, "data_object").Ok?
    ensures var p := DecodeThread(Member(root, "data_object").value);
      DecodeWhisper(root) == if p.Err? then Err(p.error)
        else Ok(Whisper("thread", Thread, Text(root, "data").value, None, Some(p.value)))
  {
  }

  /** One bad emote, three levels down, fails the whole message. */
  lemma EmoteFailureFailsWhisper(root: Json, k: nat)
    requires Text(root, "type") == Ok("whisper_received")
    requires Member(root, "data_object").Ok?
    requires Member(Member(root, "data_object").value, "tags").Ok?
    requires Elements(Member(Member(root, "data_object").value, "tags").value, "emotes").Ok?
    requires k < |Elements(Member(Member(root, "data_object").value, "tags").value, "emotes").value|
    requires DecodeEmote(Elements(Member(Member(root, "data_object").value, "tags").value, "emotes").value[k]).Err?
    ensures DecodeWhisper(root).Err?
  {
  }
}
