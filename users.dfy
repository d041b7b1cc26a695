/**
 * Parsing of one element of `users.json` (src/lib/user.ts). Every field is
 * copied under its camelCase name; the sized profile images and the time zone
 * lose their first backslash. A field the rest of the program never reads is
 * kept as the JSON value it was, whatever its type, as the source copies it.
 */
module Users {
  import opened Wrappers
  import opened Json
  import opened Text

  /** The fields of type `Json` are copied verbatim and read by nothing else. */
  datatype Profile = Profile(
    title: Json,
    phone: Json,
    skype: Json,
    realName: string,
    realNameNormalized: Json,
    displayName: string,
    displayNameNormalized: Json,
    fields: Json,
    statusText: Json,
    statusEmoji: Json,
    statusExpiration: Json,
    avatarHash: Json,
    imageOriginal: Json,
    isCustomImage: Json,
    image24: string,
    image32: string,
    image48: string,
    image72: string,
    image192: string,
    image512: string,
    image1024: string,
    statusTextCanonical: Json,
    team: Json,
    email: Json,
    firstName: Json,
    lastName: Json,
    botId: Option<string>,
    apiAppId: Json,
    alwaysActive: Json)

  /** `timeZone` is read from JSON `tz`, its label and offset from `tz_label` and `tz_offset`. */
  datatype User = User(
    id: string,
    teamId: Json,
    name: string,
    deleted: Json,
    color: Json,
    realName: Json,
    timeZone: string,
    timeZoneLabel: Json,
    timeZoneOffset: Json,
    profile: Profile,
    isAdmin: Json,
    isOwner: Json,
    isPrimaryOwner: Json,
    isRestricted: Json,
    isUltraRestricted: Json,
    isBot: Json,
    isAppUser: Json,
    updated: Json)

  // ---------------------------------------------------------------------------
  // Profile

  /**
   * A profile object the parser can read: it calls `replace` on the sized
   * images, and the names and the bot id are compared as strings later on.
   * Every other field may hold anything, or be missing.
   */
  predicate ProfileShaped(obj: Json) {
    && !Nullish(obj)
    && Get(obj, "real_name").JString?
    && Get(obj, "display_name").JString?
    && ProfileImagesShaped(obj)
    && OptionalString(Get(obj, "bot_id"))
  }

  predicate ProfileImagesShaped(obj: Json)
    requires !Nullish(obj)
  {
    && Get(obj, "image_24").JString?
    && Get(obj, "image_32").JString?
    && Get(obj, "image_48").JString?
    && Get(obj, "image_72").JString?
    && Get(obj, "image_192").JString?
    && Get(obj, "image_512").JString?
    && Get(obj, "image_1024").JString?
  }

  /** parseProfile */
  function ParseProfile(obj: Json): (p: Profile)
    requires ProfileShaped(obj)
    ensures p.title == Get(obj, "title")
    ensures p.phone == Get(obj, "phone")
    ensures p.skype == Get(obj, "skype")
    ensures JString(p.realName) == Get(obj, "real_name")
    ensures p.realNameNormalized == Get(obj, "real_name_normalized")
    ensures JString(p.displayName) == Get(obj, "display_name")
    ensures p.displayNameNormalized == Get(obj, "display_name_normalized")
    ensures p.fields == Get(obj, "fields")
    ensures p.statusText == Get(obj, "status_text")
    ensures p.statusEmoji == Get(obj, "status_emoji")
    ensures p.statusExpiration == Get(obj, "status_expiration")
    ensures p.avatarHash == Get(obj, "avatar_hash")
    ensures p.imageOriginal == Get(obj, "image_original")
    ensures p.isCustomImage == Get(obj, "is_custom_image")
    ensures p.image24 == UnescapeStr(Get(obj, "image_24").s)
    ensures p.image32 == UnescapeStr(Get(obj, "image_32").s)
    ensures p.image48 == UnescapeStr(Get(obj, "image_48").s)
    ensures p.image72 == UnescapeStr(Get(obj, "image_72").s)
    ensures p.image192 == UnescapeStr(Get(obj, "image_192").s)
    ensures p.image512 == UnescapeStr(Get(obj, "image_512").s)
    ensures p.image1024 == UnescapeStr(Get(obj, "image_1024").s)
    ensures p.statusTextCanonical == Get(obj, "status_text_canonical")
    ensures p.team == Get(obj, "team")
    ensures p.email == Get(obj, "email")
    ensures p.firstName == Get(obj, "first_name")
    ensures p.lastName == Get(obj, "last_name")
    ensures CopiesString(p.botId, Get(obj, "bot_id"))
    ensures p.apiAppId == Get(obj, "api_app_id")
    ensures p.alwaysActive == Get(obj, "always_active")
  {
    Profile(
      Get(obj, "title"),
      Get(obj, "phone"),
      Get(obj, "skype"),
      Get(obj, "real_name").s,
      Get(obj, "real_name_normalized"),
      Get(obj, "display_name").s,
      Get(obj, "display_name_normalized"),
      Get(obj, "fields"),
      Get(obj, "status_text"),
      Get(obj, "status_emoji"),
      Get(obj, "status_expiration"),
      Get(obj, "avatar_hash"),
      Get(obj, "image_original"),
      Get(obj, "is_custom_image"),
      UnescapeStr(Get(obj, "image_24").s),
      UnescapeStr(Get(obj, "image_32").s),
      UnescapeStr(Get(obj, "image_48").s),
      UnescapeStr(Get(obj, "image_72").s),
      UnescapeStr(Get(obj, "image_192").s),
      UnescapeStr(Get(obj, "image_512").s),
      UnescapeStr(Get(obj, "image_1024").s),
      Get(obj, "status_text_canonical"),
      Get(obj, "team"),
      Get(obj, "email"),
      Get(obj, "first_name"),
      Get(obj, "last_name"),
      OptString(Get(obj, "bot_id")),
      Get(obj, "api_app_id"),
      Get(obj, "always_active"))
  }

  // ---------------------------------------------------------------------------
  // User

  /**
   * A user object the parser can read: it calls `replace` on `tz` and parses
   * the profile, and the id and account name are used as strings later on.
   */
  predicate UserShaped(obj: Json) {
    && !Nullish(obj)
    && Get(obj, "id").JString?
    && Get(obj, "name").JString?
    && Get(obj, "tz").JString?
    && ProfileShaped(Get(obj, "profile"))
  }

  /** parseUser */
  function ParseUser(obj: Json): (u: User)
    requires UserShaped(obj)
    ensures JString(u.id) == Get(obj, "id")
    ensures u.teamId == Get(obj, "team_id")
    ensures JString(u.name) == Get(obj, "name")
    ensures u.deleted == Get(obj, "deleted")
    ensures u.color == Get(obj, "color")
    ensures u.realName == Get(obj, "real_name")
    ensures u.timeZone == UnescapeStr(Get(obj, "tz").s)
    ensures u.timeZoneLabel == Get(obj, "tz_label")
    ensures u.timeZoneOffset == Get(obj, "tz_offset")
    ensures u.profile == ParseProfile(Get(obj, "profile"))
    ensures u.isAdmin == Get(obj, "is_admin")
    ensures u.isOwner == Get(obj, "is_owner")
    ensures u.isPrimaryOwner == Get(obj, "is_primary_owner")
    ensures u.isRestricted == Get(obj, "is_restricted")
    ensures u.isUltraRestricted == Get(obj, "is_ultra_restricted")
    ensures u.isBot == Get(obj, "is_bot")
    ensures u.isAppUser == Get(obj, "is_app_user")
    ensures u.updated == Get(obj, "updated")
  {
    User(
      Get(obj, "id").s,
      Get(obj, "team_id"),
      Get(obj, "name").s,
      Get(obj, "deleted"),
      Get(obj, "color"),
      Get(obj, "real_name"),
      UnescapeStr(Get(obj, "tz").s),
      Get(obj, "tz_label"),
      Get(obj, "tz_offset"),
      ParseProfile(Get(obj, "profile")),
      Get(obj, "is_admin"),
      Get(obj, "is_owner"),
      Get(obj, "is_primary_owner"),
      Get(obj, "is_restricted"),
      Get(obj, "is_ultra_restricted"),
      Get(obj, "is_bot"),
      Get(obj, "is_app_user"),
      Get(obj, "updated"))
  }

  // ---------------------------------------------------------------------------
  // Encoding: the records of the export that parse back to a given user.
  // The sized images and the time zone are written with a leading backslash,
  // as the export escapes `/`; a verbatim field is stored as itself, and
  // `undefined` stands for a missing key.

  predicate EncodesProfile(j: Json, p: Profile) {
    !Nullish(j) && EncodesProfileText(j, p) && EncodesProfileImages(j, p) && Get(j, "bot_id") == FromOptString(p.botId)
  }

  predicate EncodesProfileText(j: Json, p: Profile)
    requires !Nullish(j)
  {
    && Get(j, "title") == p.title
    && Get(j, "phone") == p.phone
    && Get(j, "skype") == p.skype
    && Get(j, "real_name") == JString(p.realName)
    && Get(j, "real_name_normalized") == p.realNameNormalized
    && Get(j, "display_name") == JString(p.displayName)
    && Get(j, "display_name_normalized") == p.displayNameNormalized
    && Get(j, "fields") == p.fields
    && Get(j, "status_text") == p.statusText
    && Get(j, "status_emoji") == p.statusEmoji
    && Get(j, "status_expiration") == p.statusExpiration
    && Get(j, "avatar_hash") == p.avatarHash
    && Get(j, "image_original") == p.imageOriginal
    && Get(j, "is_custom_image") == p.isCustomImage
    && Get(j, "status_text_canonical") == p.statusTextCanonical
    && Get(j, "team") == p.team
    && Get(j, "email") == p.email
    && Get(j, "first_name") == p.firstName
    && Get(j, "last_name") == p.lastName
    && Get(j, "api_app_id") == p.apiAppId
    && Get(j, "always_active") == p.alwaysActive
  }

  predicate EncodesProfileImages(j: Json, p: Profile)
    requires !Nullish(j)
  {
    && Get(j, "image_24") == JString(['\\'] + p.image24)
    && Get(j, "image_32") == JString(['\\'] + p.image32)
    && Get(j, "image_48") == JString(['\\'] + p.image48)
    && Get(j, "image_72") == JString(['\\'] + p.image72)
    && Get(j, "image_192") == JString(['\\'] + p.image192)
    && Get(j, "image_512") == JString(['\\'] + p.image512)
    && Get(j, "image_1024") == JString(['\\'] + p.image1024)
  }

  predicate EncodesUser(j: Json, u: User) {
    && !Nullish(j)
    && Get(j, "id") == JString(u.id)
    && Get(j, "team_id") == u.teamId
    && Get(j, "name") == JString(u.name)
    && Get(j, "deleted") == u.deleted
    && Get(j, "color") == u.color
    && Get(j, "real_name") == u.realName
    && Get(j, "tz") == JString(['\\'] + u.timeZone)
    && Get(j, "tz_label") == u.timeZoneLabel
    && Get(j, "tz_offset") == u.timeZoneOffset
    && EncodesProfile(Get(j, "profile"), u.profile)
    && Get(j, "is_admin") == u.isAdmin
    && Get(j, "is_owner") == u.isOwner
    && Get(j, "is_primary_owner") == u.isPrimaryOwner
    && Get(j, "is_restricted") == u.isRestricted
    && Get(j, "is_ultra_restricted") == u.isUltraRestricted
    && Get(j, "is_bot") == u.isBot
    && Get(j, "is_app_user") == u.isAppUser
    && Get(j, "updated") == u.updated
  }

  lemma ProfileImagesRoundTrip(j: Json, p: Profile)
    requires !Nullish(j) && EncodesProfileImages(j, p)
    ensures ProfileImagesShaped(j)
    ensures UnescapeStr(Get(j, "image_24").s) == p.image24
    ensures UnescapeStr(Get(j, "image_32").s) == p.image32
    ensures UnescapeStr(Get(j, "image_48").s) == p.image48
    ensures UnescapeStr(Get(j, "image_72").s) == p.image72
    ensures UnescapeStr(Get(j, "image_192").s) == p.image192
    ensures UnescapeStr(Get(j, "image_512").s) == p.image512
    ensures UnescapeStr(Get(j, "image_1024").s) == p.image1024
  {
    UnescapeStrEscaped(p.image24);
    UnescapeStrEscaped(p.image32);
    UnescapeStrEscaped(p.image48);
    UnescapeStrEscaped(p.image72);
    UnescapeStrEscaped(p.image192);
    UnescapeStrEscaped(p.image512);
    UnescapeStrEscaped(p.image1024);
  }

  /** The bot id, the one optional profile field read later, reads back verbatim. */
  lemma ProfileBotIdRoundTrip(j: Json, p: Profile)
    requires !Nullish(j) && Get(j, "bot_id") == FromOptString(p.botId)
    ensures OptionalString(Get(j, "bot_id")) && OptString(Get(j, "bot_id")) == p.botId
  {
    OptionalRoundTrips(p.botId, None, None, None);
  }

  /** Round trip: any record that encodes the fields of `p` parses to `p`. */
  lemma ParseEncodedProfile(j: Json, p: Profile)
    requires EncodesProfile(j, p)
    ensures ProfileShaped(j) && ParseProfile(j) == p
  {
    ProfileImagesRoundTrip(j, p);
    ProfileBotIdRoundTrip(j, p);
  }

  /** Round trip: any record that encodes the fields of `u` parses to `u`. */
  lemma ParseEncodedUser(j: Json, u: User)
    requires EncodesUser(j, u)
    ensures UserShaped(j) && ParseUser(j) == u
  {
    ParseEncodedProfile(Get(j, "profile"), u.profile);
    UnescapeStrEscaped(u.timeZone);
  }

  /** The time zone of the sample user, exported as `Asia\/Tokyo`, reads `Asia/Tokyo`. */
  lemma TimeZoneExample(obj: Json)
    requires UserShaped(obj) && Get(obj, "tz") == JString("Asia" + (['\\'] + "/Tokyo"))
    ensures ParseUser(obj).timeZone == "Asia" + "/Tokyo"
  {
    UnescapeStrExample();
  }
}
