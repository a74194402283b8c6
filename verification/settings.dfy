/** The settings endpoint of `SchocialSettings`: the POST handler keeps an
    allow-list of five request keys and replaces the stored option with them;
    the GET handler reads exactly five keys back, filling in defaults. */
module Settings {
  import opened Values

  const FacebookApiKey: string := "facebook_api_key"
  const TwitterApiKey: string := "twitter_api_key"
  const LinkedInApiKey: string := "linkedin_api_key"
  const InstagramApiKey: string := "instagram_api_key"
  const EnabledPlatformsKey: string := "enabled_platforms"

  /** The four keys that read back as `''` when unset. */
  const ApiKeyKeys: set<string> := {FacebookApiKey, TwitterApiKey, LinkedInApiKey, InstagramApiKey}

  /** The keys the POST handler lets through. */
  const AllowedKeys: set<string> := ApiKeyKeys + {EnabledPlatformsKey}

  /** `enabled_platforms` when nothing is stored: every platform on. */
  const DefaultEnabledPlatforms: Value := Obj(AllPlatforms(Bool(true)))

  /** The option `schocial_settings`; an option never written reads as the empty array. */
  type Store = map<string, Value>

  /** What the POST handler leaves behind: the new option and the response body. */
  datatype Update = Update(store: Store, response: map<string, Value>)

  /** `array_filter(params, in-allow-list, ARRAY_FILTER_USE_KEY)`. */
  function AllowListed(params: map<string, Value>): (kept: map<string, Value>)
    ensures kept.Keys <= AllowedKeys
    ensures forall k :: k in params && k in AllowedKeys ==> k in kept && kept[k] == params[k]
    ensures forall k :: k in kept ==> k in params
  {
    map k | k in params && k in AllowedKeys :: params[k]
  }

  /** The POST handler: the filtered request becomes the whole option, and the
      response is the option read back. */
  function UpdateSettings(stored: Store, params: map<string, Value>): (u: Update)
    ensures u.store.Keys <= AllowedKeys
    ensures forall k :: k in params && k in AllowedKeys ==> k in u.store && u.store[k] == params[k]
    ensures forall k :: k in stored && k !in params ==> k !in u.store
    ensures u.response == u.store
    ensures u.store == AllowListed(params)
  {
    var kept := AllowListed(params);
    Update(kept, kept)
  }

  /** The value GET reports for one of the four API-key fields. */
  function ReadApiKey(stored: Store, k: string): Value {
    if IsSet(stored, k) then stored[k] else Str("")
  }

  /** The GET handler: always the five allow-listed keys; an API key that is
      missing or null reads as `''`, a missing `enabled_platforms` as all on. */
  function GetSettings(stored: Store): (r: map<string, Value>)
    ensures r.Keys == AllowedKeys
    ensures forall k :: k in r ==> r[k] != Null
    ensures forall k :: k in r && IsSet(stored, k) ==> r[k] == stored[k]
    ensures forall k :: k in ApiKeyKeys && !IsSet(stored, k) ==> r[k] == Str("")
    ensures !IsSet(stored, EnabledPlatformsKey) ==> r[EnabledPlatformsKey] == DefaultEnabledPlatforms
  {
    map[
      FacebookApiKey := ReadApiKey(stored, FacebookApiKey),
      TwitterApiKey := ReadApiKey(stored, TwitterApiKey),
      LinkedInApiKey := ReadApiKey(stored, LinkedInApiKey),
      InstagramApiKey := ReadApiKey(stored, InstagramApiKey),
      EnabledPlatformsKey :=
        if IsSet(stored, EnabledPlatformsKey) then stored[EnabledPlatformsKey] else DefaultEnabledPlatforms
    ]
  }

  /** Filtering an already filtered map changes nothing. */
  lemma AllowListIdempotent(params: map<string, Value>)
    ensures AllowListed(AllowListed(params)) == AllowListed(params)
  {
  }

  /** The response of GET is already allow-listed, so posting it back stores it unchanged. */
  lemma GetResponseIsFixedPoint(stored: Store, before: Store)
    ensures AllowListed(GetSettings(stored)) == GetSettings(stored)
    ensures GetSettings(UpdateSettings(before, GetSettings(stored)).store) == GetSettings(stored)
  {
  }

  /** Save-then-read: every allow-listed key posted with a non-null value reads
      back unchanged, the others read back as their defaults, and nothing that
      was stored before survives. */
  lemma SaveThenRead(before: Store, params: map<string, Value>)
    ensures var r := GetSettings(UpdateSettings(before, params).store);
      && (forall k :: k in AllowedKeys && IsSet(params, k) ==> r[k] == params[k])
      && (forall k :: k in ApiKeyKeys && !IsSet(params, k) ==> r[k] == Str(""))
      && (!IsSet(params, EnabledPlatformsKey) ==> r[EnabledPlatformsKey] == DefaultEnabledPlatforms)
    ensures GetSettings(UpdateSettings(before, params).store) == GetSettings(params)
  {
  }

  /** The scenario of the settings unit test: two stored keys, five read back. */
  lemma StoredKeysReadBack()
    ensures var r := GetSettings(map[FacebookApiKey := Str("test_key"), TwitterApiKey := Str("test_key")]);
      && FacebookApiKey in r && TwitterApiKey in r
      && r[FacebookApiKey] == Str("test_key")
      && r[LinkedInApiKey] == Str("")
      && r[EnabledPlatformsKey] == DefaultEnabledPlatforms
  {
  }

  /** A key outside the allow-list, here `twitter_api_secret`, is never stored. */
  lemma UnknownKeyDropped(before: Store, params: map<string, Value>)
    ensures "twitter_api_secret" !in UpdateSettings(before, params).store
  {
  }
}
