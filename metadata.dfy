/**
 * The metadata shown beside a message (src/lib/metadata.ts): its UTC time,
 * the name of whoever posted it and their 72px image. The poster is found
 * among the users either as the bot the message names or by the user id.
 */
module Metadata {
  import opened Wrappers
  import opened Json
  import JsMap
  import opened Messages
  import opened Users
  import Time

  datatype Metadata = Metadata(time: string, username: string, imageURL: string)

  /** The users in the `Map`'s iteration order, keyed by user id. */
  type UserMap = seq<(string, User)>

  // ---------------------------------------------------------------------------
  // Finding the poster

  /** `message.botId === user.profile.botId` for a message that names a bot. */
  predicate IsBotOf(m: Message, u: User) {
    m.botId.Some? && u.profile.botId == m.botId
  }

  /** The first user, in iteration order, whose profile names the message's bot. */
  function FirstBot(users: UserMap, m: Message): (r: Option<User>)
    ensures r.Some? <==> exists i | 0 <= i < |users| :: IsBotOf(m, users[i].1)
    ensures r.Some? ==> IsBotOf(m, r.value)
  {
    if users == [] then None
    else if IsBotOf(m, users[0].1) then Some(users[0].1)
    else
      var r := FirstBot(users[1..], m);
      assert forall i | 1 <= i < |users| :: users[i] == users[1..][i - 1];
      r
  }

  /** The user `getUser` yields: the bot the message names if some user is that bot, otherwise the user with the message's id. */
  function UserFor(m: Message, users: UserMap): Option<User> {
    if TruthyString(m.botId) && FirstBot(users, m).Some? then FirstBot(users, m)
    else JsMap.Get(users, m.user)
  }

  /** getUser: the loop over `users.values()` returns at the first bot match. */
  method GetUser(m: Message, users: UserMap) returns (u: Option<User>)
    ensures u == UserFor(m, users)
  {
    if TruthyString(m.botId) {
      var i := 0;
      while i < |users|
        invariant 0 <= i <= |users|
        invariant forall j | 0 <= j < i :: !IsBotOf(m, users[j].1)
      {
        if m.botId == users[i].1.profile.botId {
          FirstBotAt(users, m, i);
          return Some(users[i].1);
        }
        i := i + 1;
      }
    }
    u := JsMap.Get(users, m.user);
  }

  /** A bot match at index i with none before it is the one FirstBot finds. */
  lemma {:induction false} FirstBotAt(users: UserMap, m: Message, i: nat)
    requires i < |users| && IsBotOf(m, users[i].1)
    requires forall j | 0 <= j < i :: !IsBotOf(m, users[j].1)
    ensures FirstBot(users, m) == Some(users[i].1)
  {
    if i > 0 {
      assert !IsBotOf(m, users[0].1);
      assert users[1..][i - 1] == users[i];
      forall j | 0 <= j < i - 1 ensures !IsBotOf(m, users[1..][j].1) {
        assert users[1..][j] == users[j + 1];
      }
      FirstBotAt(users[1..], m, i - 1);
    }
  }

  /** A message naming a bot is attributed to the first user that is that bot. */
  lemma BotPoster(m: Message, users: UserMap, i: nat)
    requires TruthyString(m.botId)
    requires i < |users| && users[i].1.profile.botId == m.botId
    requires forall j | 0 <= j < i :: users[j].1.profile.botId != m.botId
    ensures UserFor(m, users) == Some(users[i].1)
  {
    FirstBotAt(users, m, i);
  }

  /** Without a bot id, or when no user is the bot, the poster is looked up by user id. */
  lemma UserIdPoster(m: Message, users: UserMap)
    requires !TruthyString(m.botId) || forall j | 0 <= j < |users| :: users[j].1.profile.botId != m.botId
    ensures UserFor(m, users) == JsMap.Get(users, m.user)
    ensures UserFor(m, users).Some? <==> JsMap.HasKey(users, m.user)
  {
  }

  // ---------------------------------------------------------------------------
  // Name and image

  /** The first non-empty string of `cands`, or '' when all are empty. */
  function FirstNonEmpty(cands: seq<string>): (r: string)
    ensures r == "" <==> forall i | 0 <= i < |cands| :: cands[i] == ""
  {
    if cands == [] then ""
    else if cands[0] != "" then cands[0]
    else
      var r := FirstNonEmpty(cands[1..]);
      assert forall i | 1 <= i < |cands| :: cands[i] == cands[1..][i - 1];
      r
  }

  /** A non-empty result is a candidate that only empty candidates precede. */
  lemma {:induction false} FirstNonEmptyIsFirst(cands: seq<string>)
    requires FirstNonEmpty(cands) != ""
    ensures exists i | 0 <= i < |cands| :: cands[i] == FirstNonEmpty(cands) && forall j | 0 <= j < i :: cands[j] == ""
  {
    if cands[0] == "" {
      var t := cands[1..];
      FirstNonEmptyIsFirst(t);
      var i :| 0 <= i < |t| && t[i] == FirstNonEmpty(t) && forall j | 0 <= j < i :: t[j] == "";
      assert cands[i + 1] == t[i];
      assert forall j | 1 <= j < i + 1 :: cands[j] == t[j - 1];
    }
  }

  /** getNameFromUser: the profile's display name, else its real name, else ''. */
  function NameFromUser(u: User): (name: string)
    ensures name == FirstNonEmpty([u.profile.displayName, u.profile.realName])
  {
    if u.profile.displayName != "" then u.profile.displayName
    else if u.profile.realName != "" then u.profile.realName
    else ""
  }

  /** getName: a bot's `username`, else the message's own profile, else the user's, else ''. */
  function GetName(m: Message, user: Option<User>): string {
    if TruthyString(m.username) then m.username.value
    else if m.userProfile.Some? && m.userProfile.value.displayName != "" then m.userProfile.value.displayName
    else if m.userProfile.Some? && m.userProfile.value.realName != "" then m.userProfile.value.realName
    else if user.Some? then NameFromUser(user.value)
    else ""
  }

  /** The names getName tries, in order; an absent source contributes ''. */
  function NameCandidates(m: Message, user: Option<User>): seq<string> {
    [if m.username.Some? then m.username.value else "",
     if m.userProfile.Some? then m.userProfile.value.displayName else "",
     if m.userProfile.Some? then m.userProfile.value.realName else "",
     if user.Some? then user.value.profile.displayName else "",
     if user.Some? then user.value.profile.realName else ""]
  }

  /** The name is the first non-empty one among the message's username, its profile's names and the user's names. */
  lemma {:induction false} NameIsFirstNonEmpty(m: Message, user: Option<User>)
    ensures GetName(m, user) == FirstNonEmpty(NameCandidates(m, user))
  {
    var c := NameCandidates(m, user);
    assert c == [c[0]] + ([c[1]] + ([c[2]] + ([c[3]] + ([c[4]] + []))));
    FirstNonEmptyCons(c[4], []);
    FirstNonEmptyCons(c[3], [c[4]]);
    FirstNonEmptyCons(c[2], [c[3], c[4]]);
    FirstNonEmptyCons(c[1], [c[2], c[3], c[4]]);
    FirstNonEmptyCons(c[0], [c[1], c[2], c[3], c[4]]);
  }

  lemma FirstNonEmptyCons(x: string, rest: seq<string>)
    ensures FirstNonEmpty([x] + rest) == if x != "" then x else FirstNonEmpty(rest)
  {
    assert ([x] + rest)[1..] == rest;
  }

  /** The name is empty exactly when every candidate is. */
  lemma NameEmpty(m: Message, user: Option<User>)
    ensures GetName(m, user) == "" <==> forall i | 0 <= i < 5 :: NameCandidates(m, user)[i] == ""
  {
    NameIsFirstNonEmpty(m, user);
  }

  /** getImageURL: the message's own profile decides when present, even with an empty image. */
  function GetImageURL(m: Message, user: Option<User>): (url: string)
    ensures m.userProfile.Some? ==> url == m.userProfile.value.image72
    ensures m.userProfile.None? && user.Some? ==> url == user.value.profile.image72
    ensures m.userProfile.None? && user.None? ==> url == ""
  {
    if m.userProfile.Some? then m.userProfile.value.image72
    else if user.Some? then user.value.profile.image72
    else ""
  }

  // ---------------------------------------------------------------------------
  // getMetadata

  /** getMetadata: the UTC `hh:mm` of the time stamp and the poster's name and image. */
  function GetMetadata(m: Message, users: UserMap): Metadata {
    var user := UserFor(m, users);
    Metadata(Time.UtcTime(m.timeStamp), GetName(m, user), GetImageURL(m, user))
  }

  /** The time field is `hh:mm`: five characters with a colon in the middle. */
  lemma MetadataTime(m: Message, users: UserMap)
    ensures |GetMetadata(m, users).time| == 5 && GetMetadata(m, users).time[2] == ':'
    ensures GetMetadata(m, users).time == Time.UtcTime(m.timeStamp)
  {
    Time.HhMmShape(Time.Clock(m.timeStamp));
  }

  /**
   * A bot message without a profile of its own: named by its `username`, else
   * by the bot user's profile, and shown with the bot user's image.
   */
  lemma BotMetadata(m: Message, users: UserMap, i: nat)
    requires TruthyString(m.botId) && m.userProfile.None?
    requires i < |users| && users[i].1.profile.botId == m.botId
    requires forall j | 0 <= j < i :: users[j].1.profile.botId != m.botId
    ensures TruthyString(m.username) ==> GetMetadata(m, users).username == m.username.value
    ensures !TruthyString(m.username) ==> GetMetadata(m, users).username == NameFromUser(users[i].1)
    ensures GetMetadata(m, users).imageURL == users[i].1.profile.image72
  {
    BotPoster(m, users, i);
  }

  /**
   * A message with a profile of its own that names someone, and no truthy
   * username: its profile's display name (or real name) and image, whatever
   * the users say and whether or not it names a bot.
   */
  lemma ProfileMetadata(m: Message, users: UserMap)
    requires !TruthyString(m.username) && m.userProfile.Some?
    requires m.userProfile.value.displayName != "" || m.userProfile.value.realName != ""
    ensures GetMetadata(m, users).username == FirstNonEmpty([m.userProfile.value.displayName, m.userProfile.value.realName])
    ensures GetMetadata(m, users).imageURL == m.userProfile.value.image72
  {
  }
}
