# Whisper message decoder (TwitchLib.PubSub)

A Dafny model of how TwitchLib.PubSub turns a PubSub "whisper" message into
typed records. The `Whisper` constructor reads `type` and `data` from the
parsed JSON. It then dispatches on the `type` text:

- `"whisper_received"` decodes `data_object` as a `DataObjWhisperReceived`.
  That record holds its `TagsObj` (with an `EmoteObj` list and a `Badge` list)
  and its `RecipientObj` (with a `Badge` list).
- `"thread"` decodes `data_object` as a `DataObjThread` with its `SpamInfoObj`.
- Any other text gives `Unknown` and reads nothing more.

Every field is either required or optional:

- A required field is read with `.ToString()` on the lookup, so an absent key
  throws.
- An optional field is read with `?.ToString()`, so an absent key gives null.

Numbers go through `long.Parse` and `int.Parse`, and flags through
`bool.Parse`. Any exception ends the whole construction.

## Modules

- `Wrappers` (wrappers.dfy): `Option` (a nullable reference) and `Result`.
  `Result` is an exception, or a value.
- `JsonTree` (json.dfy): the parsed JSON tree (a `JToken`). It has
  - `Lookup`, which is `SelectToken` with a plain member name;
  - `TokenText`, which is `JToken.ToString()`.
- `Decimal` (decimal.dfy) and `Parsing` (parsing.dfy) hold the text forms of
  numbers and `long.Parse`, `int.Parse` and `bool.Parse`. `int64` and `int32`
  are the C# `long` and `int` ranges.
- `WhisperMessage` (whisper.dfy) has one record datatype and one decode
  function per C# class. A decoder returns the record, or a `DecodeError` that
  names the key whose token made the constructor throw.
- `WhisperLists` (lists.dfy): the `foreach … Add` loops of `TagsObj` and
  `RecipientObj` as methods. Each method is proved to build exactly what the
  decode functions describe.
- `WhisperProperties` (properties.dfy) holds lemmas about the decoders over
  all JSON trees:
  - the required and optional members;
  - the display-name mirroring;
  - the dispatch;
  - all-or-nothing failure.
- `WhisperEncoding` (encoding.dfy) writes the records back into the wire
  shape. It proves that decoding that shape gives back every record the
  decoder can produce.

Behaviour of the code worth noting:

- Emotes: no `start <= end` invariant is claimed. `EmoteObj` does not check it.
- `data`: it can be any token and is kept as that token's text. The code does
  not require a JSON string.
- Booleans: `bool.Parse` ignores letter case. A JSON boolean token is rendered
  `"True"`/`"False"` and parses back.
- A present `emotes`/`badges` member holding a scalar (null, string, number,
  boolean): the loop runs over no children and gives an empty list. An absent
  member fails with `MissingField`, and a member holding an object fails with
  `NotAnArray` (see "Left out" for what the code does there).

## Model

| member | source | states |
|---|---|---|
| `JsonTree.TokenText` | TwitchLib.PubSub/Models/Responses/Messages/Whisper.cs:126-129 | a token's text: a string's own characters, "" for null, "True"/"False" for booleans, and for an integer token a text that reads back as that integer |
| `Decimal.IntegerValue` | TwitchLib.PubSub/Models/Responses/Messages/Whisper.cs:100 | integer text is recognised exactly when it is an optional sign followed by at least one digit |
| `Decimal.DigitsRoundTrip` | TwitchLib.PubSub/Models/Responses/Messages/Whisper.cs:100 | the digits of any natural number read back as that number |
| `Decimal.DecimalRoundTrip` | TwitchLib.PubSub/Models/Responses/Messages/Whisper.cs:100 | the decimal text of any integer (an integer token's `ToString()`) reads back as that integer |
| `Parsing.ParseBounded` | TwitchLib.PubSub/Models/Responses/Messages/Whisper.cs:54 | a format failure happens exactly on non-integer text; an overflow exactly on integer text outside the bounds; success gives the text's value, within the bounds |
| `Parsing.ParseLong` | TwitchLib.PubSub/Models/Responses/Messages/Whisper.cs:54 | `long.Parse` succeeds exactly on integer text whose value fits 64-bit signed, and returns that value; a failure is a format error exactly when the text is not integer text, otherwise an overflow |
| `Parsing.ParseInt` | TwitchLib.PubSub/Models/Responses/Messages/Whisper.cs:149-151 | `int.Parse` succeeds exactly on integer text whose value fits 32-bit signed, and returns that value; a failure is a format error exactly when the text is not integer text, otherwise an overflow |
| `Parsing.ParseBool` | TwitchLib.PubSub/Models/Responses/Messages/Whisper.cs:55-56 | `bool.Parse` gives true exactly for "true" and false exactly for "false", in any letter case; all other text fails |
| `Parsing.LongRoundTrip` | TwitchLib.PubSub/Models/Responses/Messages/Whisper.cs:100 | every `long` is parsed back from its decimal text |
| `Parsing.IntRoundTrip` | TwitchLib.PubSub/Models/Responses/Messages/Whisper.cs:149 | every `int` is parsed back from its decimal text |
| `Parsing.BoolRoundTrip` | TwitchLib.PubSub/Models/Responses/Messages/Whisper.cs:55 | a JSON boolean's text ("True"/"False") parses back to that boolean |
| `JsonTree.Lookup` | TwitchLib.PubSub/Models/Responses/Messages/Whisper.cs:24-25 | `SelectToken` of a plain name: a token exactly when the token looked in is an object with that member, and then that member's value |
| `WhisperMessage.KindOf` | TwitchLib.PubSub/Models/Responses/Messages/Whisper.cs:26-39 | the `switch` on the type text: `WhisperReceived` exactly for "whisper_received", `Thread` exactly for "thread", `Unknown` for every other text |
| `WhisperMessage.Text` | TwitchLib.PubSub/Models/Responses/Messages/Whisper.cs:97 | a required member's text: an absent member fails with `MissingField` naming it, a present one gives its token's text |
| `WhisperMessage.OptionalText` | TwitchLib.PubSub/Models/Responses/Messages/Whisper.cs:98-99 | an optional member's text: null exactly when the member is absent, otherwise its token's text |
| `WhisperMessage.Member` | TwitchLib.PubSub/Models/Responses/Messages/Whisper.cs:102-103 | the token a nested constructor receives: an absent member fails with `MissingField`, a present one is passed on as is |
| `WhisperMessage.Long` | TwitchLib.PubSub/Models/Responses/Messages/Whisper.cs:100 | `long.Parse` of a member: an absent member gives `MissingField`, non-integer text `NotAnInteger`, integer text outside the 64-bit range `IntegerOverflow`; integer text within the range succeeds, with the text's value |
| `WhisperMessage.Int` | TwitchLib.PubSub/Models/Responses/Messages/Whisper.cs:149-151 | `int.Parse` of a member: an absent member gives `MissingField`, non-integer text `NotAnInteger`, integer text outside the 32-bit range `IntegerOverflow`; integer text within the range succeeds, with the text's value |
| `WhisperMessage.Bool` | TwitchLib.PubSub/Models/Responses/Messages/Whisper.cs:55-56 | `bool.Parse` of a member: an absent member gives `MissingField`; true exactly for "true" and false exactly for "false" in any letter case; any other text gives `NotABoolean` |
| `WhisperMessage.Elements` | TwitchLib.PubSub/Models/Responses/Messages/Whisper.cs:130-133 | the tokens a `foreach` over a member visits: an array's elements in order, none for a scalar; an absent member fails with `MissingField`, an object with `NotAnArray` |
| `WhisperMessage.DecodeBadge` | TwitchLib.PubSub/Models/Responses/Messages/Whisper.cs:194-198 | a badge never fails; each of `id` and `version` is set exactly when its member is present, to that token's text |
| `WhisperMessage.DecodeEmote` | TwitchLib.PubSub/Models/Responses/Messages/Whisper.cs:147-152 | an emote decodes exactly when id, start and end all parse as `int`; success implies all three keys are present; id, start and end are exactly the parsed values of their members; a failure carries the error of the first of id, start, end that fails |
| `WhisperMessage.DecodeBadges` | TwitchLib.PubSub/Models/Responses/Messages/Whisper.cs:132-133 | one badge per token, the i-th badge decoded from the i-th token |
| `WhisperMessage.FirstFailure` | TwitchLib.PubSub/Models/Responses/Messages/Whisper.cs:130-131 | for any element decoder, the position of the first token it fails on: every earlier token decodes, and the token there (if any) fails |
| `WhisperMessage.DecodeEach` | TwitchLib.PubSub/Models/Responses/Messages/Whisper.cs:130-131 | for any element decoder, the `foreach`-and-`Add` loop succeeds exactly when no token fails, giving one element per token in order; otherwise it fails with the first failing token's error |
| `WhisperMessage.DecodeEachStopsAt` | TwitchLib.PubSub/Models/Responses/Messages/Whisper.cs:130-131 | when every token before position i decodes and the one at i fails, the loop fails with exactly that token's error |
| `WhisperMessage.DecodeEachAll` | TwitchLib.PubSub/Models/Responses/Messages/Whisper.cs:130-131 | when every token decodes to the matching element of a list, the loop yields exactly that list |
| `WhisperMessage.DecodeEmotes` | TwitchLib.PubSub/Models/Responses/Messages/Whisper.cs:130-131 | the list decodes exactly when no token fails; then it has one emote per token, in order; otherwise it fails with the error of the first failing token |
| `WhisperMessage.DecodeTags` | TwitchLib.PubSub/Models/Responses/Messages/Whisper.cs:124-134 | display name equals login (both read from `login`); color and user type are the optional members; success exactly when `emotes` is an array whose every emote decodes (or a scalar) and `badges` is an array or a scalar, an object in either failing with `NotAnArray`; the emote list is exactly the in-order decode of the `emotes` tokens and the badge list that of the `badges` tokens; a failure carries the error of the first failing step in source order: `emotes` lookup, an emote, `badges` lookup |
| `WhisperMessage.DecodeRecipient` | TwitchLib.PubSub/Models/Responses/Messages/Whisper.cs:173-182 | success exactly when `id` is present and `badges` is an array or a scalar (an object fails with `NotAnArray`); the id is the `id` member's text; username, display name (from `display_name`), color and user type are the optional members; one badge per token, in order; a failure carries the error of `id` if it fails, otherwise that of `badges` |
| `WhisperMessage.DecodeWhisperReceived` | TwitchLib.PubSub/Models/Responses/Messages/Whisper.cs:95-105 | success exactly when id, sent_ts (a `long`), from_id, tags and recipient all decode; id and from_id are their members' texts and sent_ts the parsed `long`; thread_id, body and nonce are the optional members; tags and recipient are the nested decodes' results; a failure carries the error of the first failing step in source order: id, sent_ts, from_id, the tags member, the tags decode, the recipient member, the recipient decode |
| `WhisperMessage.DecodeSpamInfo` | TwitchLib.PubSub/Models/Responses/Messages/Whisper.cs:65-69 | success exactly when likelihood is present and last_marked_not_spam parses as `long`; the likelihood is its member's text and the timestamp the parsed value; a failure carries the error of likelihood if it fails, otherwise that of last_marked_not_spam |
| `WhisperMessage.DecodeThread` | TwitchLib.PubSub/Models/Responses/Messages/Whisper.cs:51-58 | success exactly when id, last_read (`long`), archived and muted (`bool`) and spam_info all decode; id is its member's text, last_read the parsed `long`, archived and muted the parsed booleans of their own members; the spam info is the nested decode's result; a failure carries the error of the first failing step in source order: id, last_read, archived, muted, the spam_info member, the spam info decode |
| `WhisperMessage.DecodeWhisper` | TwitchLib.PubSub/Models/Responses/Messages/Whisper.cs:22-41 | a missing `type`, then a missing `data`, fails with that key; on success type and data are the tokens' texts, the kind is what the type text selects and only that kind's payload slot is filled, holding the payload decode of `data_object`; an unrecognised type with both keys present always succeeds with neither payload; a recognised type without `data_object` fails with `MissingField("data_object")`, and a failing payload fails the message with the payload's error |
| `WhisperLists.CollectBadges` | TwitchLib.PubSub/Models/Responses/Messages/Whisper.cs:132-133 | the badge loop builds one badge per token, the i-th from the i-th token |
| `WhisperLists.CollectEmotes` | TwitchLib.PubSub/Models/Responses/Messages/Whisper.cs:130-131 | the emote loop's outcome is exactly `DecodeEmotes` of the tokens |
| `WhisperLists.NewTags` | TwitchLib.PubSub/Models/Responses/Messages/Whisper.cs:124-134 | the constructor with its two loops yields exactly `DecodeTags` |
| `WhisperLists.NewRecipient` | TwitchLib.PubSub/Models/Responses/Messages/Whisper.cs:173-182 | the constructor with its loop yields exactly `DecodeRecipient` |
| `WhisperProperties.ThreadIdOptional` | TwitchLib.PubSub/Models/Responses/Messages/Whisper.cs:98 | removing `thread_id` empties that field and changes nothing else, success or failure included |
| `WhisperProperties.BodyOptional` | TwitchLib.PubSub/Models/Responses/Messages/Whisper.cs:99 | removing `body` empties that field and changes nothing else |
| `WhisperProperties.NonceOptional` | TwitchLib.PubSub/Models/Responses/Messages/Whisper.cs:104 | removing `nonce` empties that field and changes nothing else |
| `WhisperProperties.TagsOptionalMembers` | TwitchLib.PubSub/Models/Responses/Messages/Whisper.cs:126-129 | removing `login` empties login and display name; removing `color` or `user_type` empties that field; nothing else changes |
| `WhisperProperties.RecipientOptionalMembers` | TwitchLib.PubSub/Models/Responses/Messages/Whisper.cs:176-179 | removing username, display_name, color or user_type empties that field only |
| `WhisperProperties.BadgeOptionalMembers` | TwitchLib.PubSub/Models/Responses/Messages/Whisper.cs:196-197 | removing a badge's id or version empties that field only |
| `WhisperProperties.ReceivedRequiredMembers` | TwitchLib.PubSub/Models/Responses/Messages/Whisper.cs:97-103 | without any of id, sent_ts, from_id, tags, recipient the payload fails |
| `WhisperProperties.TagsRequiredMembers` | TwitchLib.PubSub/Models/Responses/Messages/Whisper.cs:130-133 | without `emotes` or `badges` the tags fail (no empty list is substituted) |
| `WhisperProperties.EmoteRequiredMembers` | TwitchLib.PubSub/Models/Responses/Messages/Whisper.cs:149-151 | without id, start or end an emote fails |
| `WhisperProperties.RecipientRequiredMembers` | TwitchLib.PubSub/Models/Responses/Messages/Whisper.cs:175-181 | without `id` or `badges` the recipient fails |
| `WhisperProperties.ThreadRequiredMembers` | TwitchLib.PubSub/Models/Responses/Messages/Whisper.cs:53-57 | without any of id, last_read, archived, muted, spam_info the thread payload fails |
| `WhisperProperties.SpamInfoRequiredMembers` | TwitchLib.PubSub/Models/Responses/Messages/Whisper.cs:67-68 | without likelihood or last_marked_not_spam the spam info fails |
| `WhisperProperties.DisplayNameMirrorsLogin` | TwitchLib.PubSub/Models/Responses/Messages/Whisper.cs:126-127 | adding, changing or removing the tags' `display_name` changes nothing, and the tags' display name is the login; the recipient's display name is its `display_name` member |
| `WhisperProperties.UnknownTypeIgnoresPayload` | TwitchLib.PubSub/Models/Responses/Messages/Whisper.cs:37-39 | for an unrecognised type, whatever `data_object` holds, or its absence, leaves the result unchanged |
| `WhisperProperties.KindDecidedByTypeText` | TwitchLib.PubSub/Models/Responses/Messages/Whisper.cs:27-40 | two messages with the same type text decode to the same kind and fill the same payload slot |
| `WhisperProperties.ReceivedFailureIsWhisperFailure` | TwitchLib.PubSub/Models/Responses/Messages/Whisper.cs:29-32 | a whisper_received message fails with its payload's error when the payload fails, and otherwise carries exactly that payload |
| `WhisperProperties.ThreadFailureIsWhisperFailure` | TwitchLib.PubSub/Models/Responses/Messages/Whisper.cs:33-36 | a thread message fails with its payload's error when the payload fails, and otherwise carries exactly that payload |
| `WhisperProperties.EmoteFailureFailsWhisper` | TwitchLib.PubSub/Models/Responses/Messages/Whisper.cs:130-131 | one emote that does not decode fails the whole message |
| `WhisperEncoding.EmoteRoundTrip` | TwitchLib.PubSub/Models/Responses/Messages/Whisper.cs:147-152 | every emote decodes back from its wire shape |
| `WhisperEncoding.EmotesRoundTrip` | TwitchLib.PubSub/Models/Responses/Messages/Whisper.cs:130-131 | every emote list decodes back from its array, length and order kept |
| `WhisperEncoding.BadgeRoundTrip` | TwitchLib.PubSub/Models/Responses/Messages/Whisper.cs:194-198 | every badge decodes back from its wire shape |
| `WhisperEncoding.BadgesRoundTrip` | TwitchLib.PubSub/Models/Responses/Messages/Whisper.cs:132-133 | every badge list decodes back from its array |
| `WhisperEncoding.TagsRoundTrip` | TwitchLib.PubSub/Models/Responses/Messages/Whisper.cs:124-134 | tags whose display name equals the login decode back from their wire shape |
| `WhisperEncoding.RecipientRoundTrip` | TwitchLib.PubSub/Models/Responses/Messages/Whisper.cs:173-182 | every recipient decodes back from its wire shape |
| `WhisperEncoding.WhisperReceivedRoundTrip` | TwitchLib.PubSub/Models/Responses/Messages/Whisper.cs:95-105 | every whisper-received payload whose tags show the login as display name decodes back |
| `WhisperEncoding.SpamInfoRoundTrip` | TwitchLib.PubSub/Models/Responses/Messages/Whisper.cs:65-69 | every spam info decodes back from its wire shape |
| `WhisperEncoding.ThreadRoundTrip` | TwitchLib.PubSub/Models/Responses/Messages/Whisper.cs:51-58 | every thread payload decodes back, booleans through their "True"/"False" text |
| `WhisperEncoding.WhisperRoundTrip` | TwitchLib.PubSub/Models/Responses/Messages/Whisper.cs:22-41 | every consistent message whose tags show the login as display name decodes back from its wire shape |
| `WhisperEncoding.DecodedIsDecodable` | TwitchLib.PubSub/Models/Responses/Messages/Whisper.cs:22-41 | every decoded message is consistent and shows the login as the tags' display name, so the round trip covers every decoder output |

## Left out

- `JObject.Parse` (the text-to-tree step) is not modelled: the model starts
  from a JSON tree. Malformed JSON text is therefore not an outcome.
- `TokenText` gives arrays and objects a fixed stand-in text. `JToken.ToString()`
  of a composite token (indented JSON) is not modelled.
- A float token keeps its literal text. .NET renders a double without its
  fraction when it is integral (1.0 as "1", 1e3 as "1000"), so `long.Parse` and
  `int.Parse` accept such a token in the code. The model rejects it with
  `NotAnInteger`.
- Newtonsoft's recognition of date-like strings as date tokens is not modelled.
  Every string stays a string token.
- `ParseLong` and `ParseInt`: leading and trailing white space, and
  culture-specific sign symbols, accepted by `NumberStyles.Integer`, are not
  modelled. They are rejected here.
- `ParseBool`: the trimming of white space and null characters by `bool.Parse`
  is not modelled. Case-insensitivity covers ASCII letters only.
- A `foreach` over an `emotes` or `badges` member that holds an object
  enumerates its properties in the code (Whisper.cs:130-133, :180). A property
  has no `id` member, so a non-empty `emotes` object fails on the `id` lookup
  at Whisper.cs:149 (`.ToString()` of null), an empty one gives no emotes, and each property of a `badges`
  object gives a badge with neither member. The model reports `NotAnArray` for
  any object instead.
- The .NET exception types (`NullReferenceException`, `FormatException`,
  `OverflowException`) become `DecodeError` values. These name the offending
  key, which the exceptions do not carry.
- `SelectToken` path syntax beyond a plain member name is not modelled. Every
  key the decoders use is a plain name.
- `MessageData` and `Enums.WhisperType` are not part of this model.
  `WhisperType` is a three-constructor datatype.
- Mutation through the `protected set` properties is not modelled. The lists
  are sequences built by the loop methods, and the records are values.
- Only the two list loops, and the `TagsObj`/`RecipientObj` constructors that
  run them, are written as methods. The other constructors are modelled by
  their decode functions alone.
