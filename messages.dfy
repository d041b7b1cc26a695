/**
 * Parsing of one message record of a channel log (src/lib/message.ts): every
 * `x || default` field gets its default when the source is falsy, the four
 * lists are always lists, and the optional fields are copied as they are.
 */
module Messages {
  import opened Wrappers
  import opened Json
  import opened Text

  datatype Reaction = Reaction(name: string, users: seq<string>, count: int)

  datatype Reply = Reply(user: string, timeStamp: string)

  /** The user profile snapshot a message may carry (JSON `user_profile`). */
  datatype UserProfile = UserProfile(
    avatarHash: string,
    image72: string,
    firstName: string,
    realName: string,
    displayName: string,
    team: string,
    name: string,
    isRestricted: bool,
    isUltraRestricted: bool)

  datatype File = File(permalink: string)

  /** An attached message (the source spells the type `Attachement`). */
  datatype Attachment = Attachment(fallback: string, pretext: string, text: string)

  /** `messageType` is the source's `type`; `timeStamp` is read from JSON `ts`. */
  datatype Message = Message(
    user: string,
    messageType: string,
    subtype: string,
    timeStamp: string,
    text: string,
    reactions: seq<Reaction>,
    replies: seq<Reply>,
    files: seq<File>,
    attachments: seq<Attachment>,
    purpose: Option<string>,
    clientMessageId: Option<string>,
    team: Option<string>,
    userTeam: Option<string>,
    sourceTeam: Option<string>,
    userProfile: Option<UserProfile>,
    inviter: Option<string>,
    username: Option<string>,
    botId: Option<string>,
    replyCount: Option<int>,
    replyUsersCount: Option<int>,
    latestReply: Option<string>,
    replyUsers: Option<seq<string>>,
    threadTimeStamp: Option<string>,
    parentUserId: Option<string>,
    subscribed: Option<bool>,
    lastRead: Option<string>)

  // ---------------------------------------------------------------------------
  // Reactions

  /** An element `value` whose fields have their declared types or are falsy. */
  predicate ReactionShaped(v: Json) {
    && !Nullish(v)
    && StringOrFalsy(Get(v, "name"))
    && StringsOrFalsy(Get(v, "users"))
    && NumberOrFalsy(Get(v, "count"))
  }

  /** The object pushed for one element. */
  function ToReaction(v: Json): (r: Reaction)
    requires ReactionShaped(v)
    ensures JString(r.name) == Or(Get(v, "name"), JString(""))
    ensures Strings(r.users) == Or(Get(v, "users"), JArray([]))
    ensures JNumber(r.count) == Or(Get(v, "count"), JNumber(0))
  {
    Reaction(OrEmpty(Get(v, "name")), OrNoStrings(Get(v, "users")), OrZero(Get(v, "count")))
  }

  predicate ReactionsShaped(obj: Json) {
    obj.JArray? ==> forall i | 0 <= i < |obj.items| :: ReactionShaped(obj.items[i])
  }

  /** What parseReactions returns. */
  function Reactions(obj: Json): seq<Reaction>
    requires ReactionsShaped(obj)
  {
    if obj.JArray? then seq(|obj.items|, i requires 0 <= i < |obj.items| => ToReaction(obj.items[i])) else []
  }

  /** parseReactions: `[]` for a non-array, else one reaction per element in order. */
  method ParseReactions(obj: Json) returns (reactions: seq<Reaction>)
    requires ReactionsShaped(obj)
    ensures !obj.JArray? ==> reactions == []
    ensures obj.JArray? ==> |reactions| == |obj.items|
    ensures obj.JArray? ==> forall i | 0 <= i < |obj.items| :: reactions[i] == ToReaction(obj.items[i])
    ensures reactions == Reactions(obj)
  {
    reactions := [];
    if !obj.JArray? {
      return;
    }
    for i := 0 to |obj.items|
      invariant |reactions| == i
      invariant forall k | 0 <= k < i :: reactions[k] == ToReaction(obj.items[k])
    {
      reactions := reactions + [ToReaction(obj.items[i])];
    }
  }

  // ---------------------------------------------------------------------------
  // Replies

  predicate ReplyShaped(v: Json) {
    !Nullish(v) && StringOrFalsy(Get(v, "user")) && StringOrFalsy(Get(v, "ts"))
  }

  function ToReply(v: Json): (r: Reply)
    requires ReplyShaped(v)
    ensures JString(r.user) == Or(Get(v, "user"), JString(""))
    ensures JString(r.timeStamp) == Or(Get(v, "ts"), JString(""))
  {
    Reply(OrEmpty(Get(v, "user")), OrEmpty(Get(v, "ts")))
  }

  predicate RepliesShaped(obj: Json) {
    obj.JArray? ==> forall i | 0 <= i < |obj.items| :: ReplyShaped(obj.items[i])
  }

  function Replies(obj: Json): seq<Reply>
    requires RepliesShaped(obj)
  {
    if obj.JArray? then seq(|obj.items|, i requires 0 <= i < |obj.items| => ToReply(obj.items[i])) else []
  }

  /** parseReplies */
  method ParseReplies(obj: Json) returns (replies: seq<Reply>)
    requires RepliesShaped(obj)
    ensures !obj.JArray? ==> replies == []
    ensures obj.JArray? ==> |replies| == |obj.items|
    ensures obj.JArray? ==> forall i | 0 <= i < |obj.items| :: replies[i] == ToReply(obj.items[i])
    ensures replies == Replies(obj)
  {
    replies := [];
    if !obj.JArray? {
      return;
    }
    for i := 0 to |obj.items|
      invariant |replies| == i
      invariant forall k | 0 <= k < i :: replies[k] == ToReply(obj.items[k])
    {
      replies := replies + [ToReply(obj.items[i])];
    }
  }

  // ---------------------------------------------------------------------------
  // Files

  predicate FileShaped(v: Json) {
    !Nullish(v) && StringOrFalsy(Get(v, "permalink"))
  }

  function ToFile(v: Json): (f: File)
    requires FileShaped(v)
    ensures JString(f.permalink) == Or(Get(v, "permalink"), JString(""))
  {
    File(OrEmpty(Get(v, "permalink")))
  }

  predicate FilesShaped(obj: Json) {
    obj.JArray? ==> forall i | 0 <= i < |obj.items| :: FileShaped(obj.items[i])
  }

  function Files(obj: Json): seq<File>
    requires FilesShaped(obj)
  {
    if obj.JArray? then seq(|obj.items|, i requires 0 <= i < |obj.items| => ToFile(obj.items[i])) else []
  }

  /** parseFiles */
  method ParseFiles(obj: Json) returns (files: seq<File>)
    requires FilesShaped(obj)
    ensures !obj.JArray? ==> files == []
    ensures obj.JArray? ==> |files| == |obj.items|
    ensures obj.JArray? ==> forall i | 0 <= i < |obj.items| :: files[i] == ToFile(obj.items[i])
    ensures files == Files(obj)
  {
    files := [];
    if !obj.JArray? {
      return;
    }
    for i := 0 to |obj.items|
      invariant |files| == i
      invariant forall k | 0 <= k < i :: files[k] == ToFile(obj.items[k])
    {
      files := files + [ToFile(obj.items[i])];
    }
  }

  // ---------------------------------------------------------------------------
  // Attachments

  predicate AttachmentShaped(v: Json) {
    && !Nullish(v)
    && StringOrFalsy(Get(v, "fallback"))
    && StringOrFalsy(Get(v, "pretext"))
    && StringOrFalsy(Get(v, "text"))
  }

  function ToAttachment(v: Json): (a: Attachment)
    requires AttachmentShaped(v)
    ensures JString(a.fallback) == Or(Get(v, "fallback"), JString(""))
    ensures JString(a.pretext) == Or(Get(v, "pretext"), JString(""))
    ensures JString(a.text) == Or(Get(v, "text"), JString(""))
  {
    Attachment(OrEmpty(Get(v, "fallback")), OrEmpty(Get(v, "pretext")), OrEmpty(Get(v, "text")))
  }

  predicate AttachmentsShaped(obj: Json) {
    obj.JArray? ==> forall i | 0 <= i < |obj.items| :: AttachmentShaped(obj.items[i])
  }

  function Attachments(obj: Json): seq<Attachment>
    requires AttachmentsShaped(obj)
  {
    if obj.JArray? then seq(|obj.items|, i requires 0 <= i < |obj.items| => ToAttachment(obj.items[i])) else []
  }

  /** parseAttachements */
  method ParseAttachments(obj: Json) returns (attachments: seq<Attachment>)
    requires AttachmentsShaped(obj)
    ensures !obj.JArray? ==> attachments == []
    ensures obj.JArray? ==> |attachments| == |obj.items|
    ensures obj.JArray? ==> forall i | 0 <= i < |obj.items| :: attachments[i] == ToAttachment(obj.items[i])
    ensures attachments == Attachments(obj)
  {
    attachments := [];
    if !obj.JArray? {
      return;
    }
    for i := 0 to |obj.items|
      invariant |attachments| == i
      invariant forall k | 0 <= k < i :: attachments[k] == ToAttachment(obj.items[k])
    {
      attachments := attachments + [ToAttachment(obj.items[i])];
    }
  }

  // ---------------------------------------------------------------------------
  // User profile and message

  predicate UserProfileShaped(obj: Json) {
    && !Nullish(obj)
    && StringOrFalsy(Get(obj, "avatar_hash"))
    && StringOrFalsy(Get(obj, "image_72"))
    && StringOrFalsy(Get(obj, "first_name"))
    && StringOrFalsy(Get(obj, "real_name"))
    && StringOrFalsy(Get(obj, "display_name"))
    && StringOrFalsy(Get(obj, "team"))
    && StringOrFalsy(Get(obj, "name"))
    && BoolOrFalsy(Get(obj, "is_restricted"))
    && BoolOrFalsy(Get(obj, "is_ultra_restricted"))
  }

  /** parseUserProfile: defaults for falsy fields; `image_72` loses its first backslash. */
  function ParseUserProfile(obj: Json): (p: UserProfile)
    requires UserProfileShaped(obj)
    ensures Truthy(Get(obj, "image_72")) ==> p.image72 == UnescapeStr(Get(obj, "image_72").s)
    ensures !Truthy(Get(obj, "image_72")) ==> p.image72 == ""
    ensures JString(p.avatarHash) == Or(Get(obj, "avatar_hash"), JString(""))
    ensures JString(p.firstName) == Or(Get(obj, "first_name"), JString(""))
    ensures JString(p.realName) == Or(Get(obj, "real_name"), JString(""))
    ensures JString(p.displayName) == Or(Get(obj, "display_name"), JString(""))
    ensures JString(p.team) == Or(Get(obj, "team"), JString(""))
    ensures JString(p.name) == Or(Get(obj, "name"), JString(""))
    ensures JBool(p.isRestricted) == Or(Get(obj, "is_restricted"), JBool(false))
    ensures JBool(p.isUltraRestricted) == Or(Get(obj, "is_ultra_restricted"), JBool(false))
  {
    var image72 := Get(obj, "image_72");
    UserProfile(
      OrEmpty(Get(obj, "avatar_hash")),
      if Truthy(image72) then UnescapeStr(image72.s) else "",
      OrEmpty(Get(obj, "first_name")),
      OrEmpty(Get(obj, "real_name")),
      OrEmpty(Get(obj, "display_name")),
      OrEmpty(Get(obj, "team")),
      OrEmpty(Get(obj, "name")),
      OrFalse(Get(obj, "is_restricted")),
      OrFalse(Get(obj, "is_ultra_restricted")))
  }

  /** A message record whose fields have their declared types, or are falsy where a default applies. */
  predicate MessageShaped(obj: Json) {
    !Nullish(obj) && HeadShaped(obj) && ListsShaped(obj) && ProfileShaped(obj) && ExtrasShaped(obj) && ThreadShaped(obj)
  }

  /** The `x || ''` strings. */
  predicate HeadShaped(obj: Json)
    requires !Nullish(obj)
  {
    && StringOrFalsy(Get(obj, "user"))
    && StringOrFalsy(Get(obj, "type"))
    && StringOrFalsy(Get(obj, "subtype"))
    && StringOrFalsy(Get(obj, "ts"))
    && StringOrFalsy(Get(obj, "text"))
  }

  predicate ListsShaped(obj: Json)
    requires !Nullish(obj)
  {
    && ReactionsShaped(Get(obj, "reactions"))
    && RepliesShaped(Get(obj, "replies"))
    && FilesShaped(Get(obj, "files"))
    && AttachmentsShaped(Get(obj, "attachments"))
  }

  predicate ProfileShaped(obj: Json)
    requires !Nullish(obj)
  {
    Truthy(Get(obj, "user_profile")) ==> UserProfileShaped(Get(obj, "user_profile"))
  }

  /** The copied identifiers and names. */
  predicate ExtrasShaped(obj: Json)
    requires !Nullish(obj)
  {
    && OptionalString(Get(obj, "purpose"))
    && OptionalString(Get(obj, "client_msg_id"))
    && OptionalString(Get(obj, "team"))
    && OptionalString(Get(obj, "user_team"))
    && OptionalString(Get(obj, "source_team"))
    && OptionalString(Get(obj, "inviter"))
    && OptionalString(Get(obj, "username"))
    && OptionalString(Get(obj, "bot_id"))
  }

  /** The copied thread fields. */
  predicate ThreadShaped(obj: Json)
    requires !Nullish(obj)
  {
    && OptionalNumber(Get(obj, "reply_count"))
    && OptionalNumber(Get(obj, "reply_users_count"))
    && OptionalString(Get(obj, "latest_reply"))
    && OptionalStrings(Get(obj, "reply_users"))
    && OptionalString(Get(obj, "thread_ts"))
    && OptionalString(Get(obj, "parent_user_id"))
    && OptionalBool(Get(obj, "subscribed"))
    && OptionalString(Get(obj, "last_read"))
  }

  /** parseMessage */
  function ParseMessage(obj: Json): (m: Message)
    requires MessageShaped(obj)
    // always strings, '' when the source is falsy; the time stamp comes from `ts`
    ensures JString(m.user) == Or(Get(obj, "user"), JString(""))
    ensures JString(m.messageType) == Or(Get(obj, "type"), JString(""))
    ensures JString(m.subtype) == Or(Get(obj, "subtype"), JString(""))
    ensures JString(m.timeStamp) == Or(Get(obj, "ts"), JString(""))
    ensures JString(m.text) == Or(Get(obj, "text"), JString(""))
    // always lists, element i built from source element i
    ensures m.reactions == Reactions(Get(obj, "reactions"))
    ensures m.replies == Replies(Get(obj, "replies"))
    ensures m.files == Files(Get(obj, "files"))
    ensures m.attachments == Attachments(Get(obj, "attachments"))
    // the profile snapshot is parsed only when present
    ensures Truthy(Get(obj, "user_profile")) ==> m.userProfile == Some(ParseUserProfile(Get(obj, "user_profile")))
    ensures !Truthy(Get(obj, "user_profile")) ==> m.userProfile == None
    // the rest is copied from the snake_case keys
    ensures CopiesString(m.purpose, Get(obj, "purpose"))
    ensures CopiesString(m.clientMessageId, Get(obj, "client_msg_id"))
    ensures CopiesString(m.team, Get(obj, "team"))
    ensures CopiesString(m.userTeam, Get(obj, "user_team"))
    ensures CopiesString(m.sourceTeam, Get(obj, "source_team"))
    ensures CopiesString(m.inviter, Get(obj, "inviter"))
    ensures CopiesString(m.username, Get(obj, "username"))
    ensures CopiesString(m.botId, Get(obj, "bot_id"))
    ensures CopiesNumber(m.replyCount, Get(obj, "reply_count"))
    ensures CopiesNumber(m.replyUsersCount, Get(obj, "reply_users_count"))
    ensures CopiesString(m.latestReply, Get(obj, "latest_reply"))
    ensures CopiesStrings(m.replyUsers, Get(obj, "reply_users"))
    ensures CopiesString(m.threadTimeStamp, Get(obj, "thread_ts"))
    ensures CopiesString(m.parentUserId, Get(obj, "parent_user_id"))
    ensures CopiesBool(m.subscribed, Get(obj, "subscribed"))
    ensures CopiesString(m.lastRead, Get(obj, "last_read"))
  {
    var profile := Get(obj, "user_profile");
    Message(
      OrEmpty(Get(obj, "user")),
      OrEmpty(Get(obj, "type")),
      OrEmpty(Get(obj, "subtype")),
      OrEmpty(Get(obj, "ts")),
      OrEmpty(Get(obj, "text")),
      Reactions(Get(obj, "reactions")),
      Replies(Get(obj, "replies")),
      Files(Get(obj, "files")),
      Attachments(Get(obj, "attachments")),
      OptString(Get(obj, "purpose")),
      OptString(Get(obj, "client_msg_id")),
      OptString(Get(obj, "team")),
      OptString(Get(obj, "user_team")),
      OptString(Get(obj, "source_team")),
      if Truthy(profile) then Some(ParseUserProfile(profile)) else None,
      OptString(Get(obj, "inviter")),
      OptString(Get(obj, "username")),
      OptString(Get(obj, "bot_id")),
      OptNumber(Get(obj, "reply_count")),
      OptNumber(Get(obj, "reply_users_count")),
      OptString(Get(obj, "latest_reply")),
      OptStrings(Get(obj, "reply_users")),
      OptString(Get(obj, "thread_ts")),
      OptString(Get(obj, "parent_user_id")),
      OptBool(Get(obj, "subscribed")),
      OptString(Get(obj, "last_read")))
  }

  // ---------------------------------------------------------------------------
  // Encoding: the records of the export that parse back to a given value

  function ReactionToJson(r: Reaction): Json {
    JObject(map["name" := JString(r.name), "users" := Strings(r.users), "count" := JNumber(r.count)])
  }

  function ReplyToJson(r: Reply): Json {
    JObject(map["user" := JString(r.user), "ts" := JString(r.timeStamp)])
  }

  function FileToJson(f: File): Json {
    JObject(map["permalink" := JString(f.permalink)])
  }

  function AttachmentToJson(a: Attachment): Json {
    JObject(map["fallback" := JString(a.fallback), "pretext" := JString(a.pretext), "text" := JString(a.text)])
  }

  function ReactionsToJson(rs: seq<Reaction>): Json {
    JArray(seq(|rs|, i requires 0 <= i < |rs| => ReactionToJson(rs[i])))
  }

  function RepliesToJson(rs: seq<Reply>): Json {
    JArray(seq(|rs|, i requires 0 <= i < |rs| => ReplyToJson(rs[i])))
  }

  function FilesToJson(fs: seq<File>): Json {
    JArray(seq(|fs|, i requires 0 <= i < |fs| => FileToJson(fs[i])))
  }

  function AttachmentsToJson(as_: seq<Attachment>): Json {
    JArray(seq(|as_|, i requires 0 <= i < |as_| => AttachmentToJson(as_[i])))
  }

  lemma ReactionRoundTrip(r: Reaction)
    ensures ReactionShaped(ReactionToJson(r)) && ToReaction(ReactionToJson(r)) == r
  {
    OrRoundTrips(r.name, r.count, false, r.users);
  }

  lemma ReactionsRoundTrip(rs: seq<Reaction>)
    ensures ReactionsShaped(ReactionsToJson(rs)) && Reactions(ReactionsToJson(rs)) == rs
  {
    forall i | 0 <= i < |rs| ensures ReactionShaped(ReactionToJson(rs[i])) && ToReaction(ReactionToJson(rs[i])) == rs[i] {
      ReactionRoundTrip(rs[i]);
    }
  }

  lemma RepliesRoundTrip(rs: seq<Reply>)
    ensures RepliesShaped(RepliesToJson(rs)) && Replies(RepliesToJson(rs)) == rs
  {
  }

  lemma FilesRoundTrip(fs: seq<File>)
    ensures FilesShaped(FilesToJson(fs)) && Files(FilesToJson(fs)) == fs
  {
  }

  lemma AttachmentsRoundTrip(as_: seq<Attachment>)
    ensures AttachmentsShaped(AttachmentsToJson(as_)) && Attachments(AttachmentsToJson(as_)) == as_
  {
  }

  /**
   * `j` holds every field of the profile `p` under its snake_case key; `image_72`
   * is written with a leading backslash, as the export escapes `/`.
   */
  predicate EncodesProfile(j: Json, p: UserProfile) {
    && j.JObject?
    && Get(j, "avatar_hash") == JString(p.avatarHash)
    && Get(j, "image_72") == JString(['\\'] + p.image72)
    && Get(j, "first_name") == JString(p.firstName)
    && Get(j, "real_name") == JString(p.realName)
    && Get(j, "display_name") == JString(p.displayName)
    && Get(j, "team") == JString(p.team)
    && Get(j, "name") == JString(p.name)
    && Get(j, "is_restricted") == JBool(p.isRestricted)
    && Get(j, "is_ultra_restricted") == JBool(p.isUltraRestricted)
  }

  /** Any record encoding the profile `p` parses to `p`. */
  lemma ParseEncodedProfile(j: Json, p: UserProfile)
    requires EncodesProfile(j, p)
    ensures UserProfileShaped(j) && ParseUserProfile(j) == p
  {
    UnescapeStrEscaped(p.image72);
  }

  /** `j` holds every field of the message `m` under its key (whatever other keys it has). */
  predicate Encodes(j: Json, m: Message) {
    !Nullish(j) && EncodesHead(j, m) && EncodesLists(j, m) && EncodesProfileField(j, m) && EncodesExtras(j, m) && EncodesThread(j, m)
  }

  /** The strings, written as they are. */
  predicate EncodesHead(j: Json, m: Message)
    requires !Nullish(j)
  {
    && Get(j, "user") == JString(m.user)
    && Get(j, "type") == JString(m.messageType)
    && Get(j, "subtype") == JString(m.subtype)
    && Get(j, "ts") == JString(m.timeStamp)
    && Get(j, "text") == JString(m.text)
  }

  /** The four lists. */
  predicate EncodesLists(j: Json, m: Message)
    requires !Nullish(j)
  {
    && Get(j, "reactions") == ReactionsToJson(m.reactions)
    && Get(j, "replies") == RepliesToJson(m.replies)
    && Get(j, "files") == FilesToJson(m.files)
    && Get(j, "attachments") == AttachmentsToJson(m.attachments)
  }

  /** The profile snapshot, left out when there is none. */
  predicate EncodesProfileField(j: Json, m: Message)
    requires !Nullish(j)
  {
    && (m.userProfile.Some? ==> EncodesProfile(Get(j, "user_profile"), m.userProfile.value))
    && (m.userProfile.None? ==> Get(j, "user_profile") == JUndefined)
  }

  /** The copied identifiers and names, left out when absent. */
  predicate EncodesExtras(j: Json, m: Message)
    requires !Nullish(j)
  {
    && Get(j, "purpose") == FromOptString(m.purpose)
    && Get(j, "client_msg_id") == FromOptString(m.clientMessageId)
    && Get(j, "team") == FromOptString(m.team)
    && Get(j, "user_team") == FromOptString(m.userTeam)
    && Get(j, "source_team") == FromOptString(m.sourceTeam)
    && Get(j, "inviter") == FromOptString(m.inviter)
    && Get(j, "username") == FromOptString(m.username)
    && Get(j, "bot_id") == FromOptString(m.botId)
  }

  /** The copied thread fields, left out when absent. */
  predicate EncodesThread(j: Json, m: Message)
    requires !Nullish(j)
  {
    && Get(j, "reply_count") == FromOptNumber(m.replyCount)
    && Get(j, "reply_users_count") == FromOptNumber(m.replyUsersCount)
    && Get(j, "latest_reply") == FromOptString(m.latestReply)
    && Get(j, "reply_users") == FromOptStrings(m.replyUsers)
    && Get(j, "thread_ts") == FromOptString(m.threadTimeStamp)
    && Get(j, "parent_user_id") == FromOptString(m.parentUserId)
    && Get(j, "subscribed") == FromOptBool(m.subscribed)
    && Get(j, "last_read") == FromOptString(m.lastRead)
  }

  lemma EncodedHeadShaped(j: Json, m: Message)
    requires !Nullish(j) && EncodesHead(j, m)
    ensures HeadShaped(j)
  {
  }

  lemma EncodedListsShaped(j: Json, m: Message)
    requires !Nullish(j) && EncodesLists(j, m)
    ensures ListsShaped(j)
  {
    ReactionsRoundTrip(m.reactions);
    RepliesRoundTrip(m.replies);
    FilesRoundTrip(m.files);
    AttachmentsRoundTrip(m.attachments);
  }

  lemma EncodedProfileShaped(j: Json, m: Message)
    requires !Nullish(j) && EncodesProfileField(j, m)
    ensures ProfileShaped(j)
  {
    if m.userProfile.Some? {
      ParseEncodedProfile(Get(j, "user_profile"), m.userProfile.value);
    }
  }

  lemma EncodedExtrasShaped(j: Json, m: Message)
    requires !Nullish(j) && EncodesExtras(j, m)
    ensures ExtrasShaped(j)
  {
  }

  lemma EncodedThreadShaped(j: Json, m: Message)
    requires !Nullish(j) && EncodesThread(j, m)
    ensures ThreadShaped(j)
  {
    StringsRoundTrip(if m.replyUsers.Some? then m.replyUsers.value else []);
  }

  lemma EncodedIsShaped(j: Json, m: Message)
    requires Encodes(j, m)
    ensures MessageShaped(j)
  {
    EncodedHeadShaped(j, m);
    EncodedListsShaped(j, m);
    EncodedProfileShaped(j, m);
    EncodedExtrasShaped(j, m);
    EncodedThreadShaped(j, m);
  }

  lemma ParsedHead(j: Json, m: Message)
    requires MessageShaped(j) && EncodesHead(j, m) && EncodesLists(j, m) && EncodesProfileField(j, m)
    ensures var p := ParseMessage(j);
      && p.user == m.user && p.messageType == m.messageType && p.subtype == m.subtype
      && p.timeStamp == m.timeStamp && p.text == m.text
      && p.reactions == m.reactions && p.replies == m.replies && p.files == m.files && p.attachments == m.attachments
      && p.userProfile == m.userProfile
  {
    ReactionsRoundTrip(m.reactions);
    RepliesRoundTrip(m.replies);
    FilesRoundTrip(m.files);
    AttachmentsRoundTrip(m.attachments);
    if m.userProfile.Some? {
      ParseEncodedProfile(Get(j, "user_profile"), m.userProfile.value);
    }
  }

  lemma ParsedExtras(j: Json, m: Message)
    requires MessageShaped(j) && EncodesExtras(j, m) && EncodesThread(j, m)
    ensures var p := ParseMessage(j);
      && p.purpose == m.purpose && p.clientMessageId == m.clientMessageId && p.team == m.team
      && p.userTeam == m.userTeam && p.sourceTeam == m.sourceTeam && p.inviter == m.inviter
      && p.username == m.username && p.botId == m.botId && p.replyCount == m.replyCount
      && p.replyUsersCount == m.replyUsersCount && p.latestReply == m.latestReply
      && p.replyUsers == m.replyUsers && p.threadTimeStamp == m.threadTimeStamp
      && p.parentUserId == m.parentUserId && p.subscribed == m.subscribed && p.lastRead == m.lastRead
  {
    OptionalRoundTrips(m.purpose, m.replyCount, m.subscribed, m.replyUsers);
    OptionalRoundTrips(m.clientMessageId, m.replyUsersCount, None, None);
    OptionalRoundTrips(m.team, None, None, None);
    OptionalRoundTrips(m.userTeam, None, None, None);
    OptionalRoundTrips(m.sourceTeam, None, None, None);
    OptionalRoundTrips(m.inviter, None, None, None);
    OptionalRoundTrips(m.username, None, None, None);
    OptionalRoundTrips(m.botId, None, None, None);
    OptionalRoundTrips(m.latestReply, None, None, None);
    OptionalRoundTrips(m.threadTimeStamp, None, None, None);
    OptionalRoundTrips(m.parentUserId, None, None, None);
    OptionalRoundTrips(m.lastRead, None, None, None);
  }

  /** Round trip: any record that encodes the fields of `m` parses to `m`, so no field is lost or altered. */
  lemma ParseEncoded(j: Json, m: Message)
    requires Encodes(j, m)
    ensures MessageShaped(j) && ParseMessage(j) == m
  {
    EncodedIsShaped(j, m);
    ParsedHead(j, m);
    ParsedExtras(j, m);
  }
}
