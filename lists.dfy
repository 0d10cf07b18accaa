/**
 * The list-building constructors as the source runs them: `TagsObj` and
 * `RecipientObj` start from empty lists and `Add` one decoded element per
 * token of the `emotes` / `badges` member. Each method is proved to build
 * exactly what the matching decoder of WhisperMessage describes.
 */
module WhisperLists {
  import opened Wrappers
  import opened JsonTree
  import opened WhisperMessage

  /** `foreach (var badge in ...) Badges.Add(new Badge(badge))`. */
  method CollectBadges(items: seq<Json>) returns (badges: seq<Badge>)
    ensures |badges| == |items|
    ensures forall i | 0 <= i < |items| :: badges[i] == DecodeBadge(items[i])
  {
    badges := [];
    for i := 0 to |items|
      invariant |badges| == i
      invariant forall k | 0 <= k < i :: badges[k] == DecodeBadge(items[k])
    {
      badges := badges + [DecodeBadge(items[i])];
    }
  }

  /** `foreach (var emote in ...) Emotes.Add(new EmoteObj(emote))`: the first
      emote that throws ends the loop, and the exception leaves the constructor. */
  method CollectEmotes(items: seq<Json>) returns (r: Decoded<seq<Emote>>)
    ensures r == DecodeEmotes(items)
  {
    var emotes: seq<Emote> := [];
    for i := 0 to |items|
      invariant |emotes| == i
      invariant forall k | 0 <= k < i :: DecodeEmote(items[k]) == Ok(emotes[k])
    {
      var emote := DecodeEmote(items[i]);
      if emote.Err? {
        DecodeEachStopsAt(DecodeEmote, items, i);
        return Err(emote.error);
      }
      emotes := emotes + [emote.value];
    }
    DecodeEachAll(DecodeEmote, items, emotes);
    r := Ok(emotes);
  }

  /** `new TagsObj(json)` with its two loops. */
  method NewTags(j: Json) returns (r: Decoded<Tags>)
    ensures r == DecodeTags(j)
  {
    var login := OptionalText(j, "login");
    var displayName := OptionalText(j, "login");
    var color := OptionalText(j, "color");
    var userType := OptionalText(j, "user_type");
    var emoteTokens :- Elements(j, "emotes");
    var emotes :- CollectEmotes(emoteTokens);
    var badgeTokens :- Elements(j, "badges");
    var badges := CollectBadges(badgeTokens);
    assert badges == DecodeBadges(badgeTokens);
    return Ok(Tags(login, displayName, color, userType, emotes, badges));
  }

  /** `new RecipientObj(json)` with its loop. */
  method NewRecipient(j: Json) returns (r: Decoded<Recipient>)
    ensures r == DecodeRecipient(j)
  {
    var id :- Text(j, "id");
    var username := OptionalText(j, "username");
    var displayName := OptionalText(j, "display_name");
    var color := OptionalText(j, "color");
    var userType := OptionalText(j, "user_type");
    var badgeTokens :- Elements(j, "badges");
    var badges := CollectBadges(badgeTokens);
    assert badges == DecodeBadges(badgeTokens);
    return Ok(Recipient(id, username, displayName, color, userType, badges));
  }
}
