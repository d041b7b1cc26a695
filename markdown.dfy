/**
 * The Markdown table rows of src/lib/markdown.ts: per message, a header row
 * (image, name, local time) and a body row whose mentions `<@USER>` and
 * `<#CHANNEL>` are replaced and whose line feeds become `<br>`.
 */
module Markdown {
  import opened Wrappers
  import opened Json
  import JsMap
  import opened Text
  import opened Messages
  import opened Channels
  import opened Users
  import Time

  type UserMap = seq<(string, User)>
  type ChannelMap = seq<(string, Channel)>

  // ---------------------------------------------------------------------------
  // The global regular expressions `/<@(.*?)>/g` and `/<#(.*?)>/g`

  /** The characters `.` does not match in a JavaScript regular expression. */
  predicate IsLineTerminator(c: char) {
    c == '\n' || c == '\r' || c == '\U{2028}' || c == '\U{2029}'
  }

  /**
   * Where the lazy `(.*?)>` closes in `t`: the first `>`, provided no line
   * terminator comes before it.
   */
  function Close(t: string): (r: Option<nat>)
    ensures r.Some? ==> r.value < |t| && t[r.value] == '>'
    ensures r.Some? ==> forall k | 0 <= k < r.value :: t[k] != '>' && !IsLineTerminator(t[k])
  {
    if t == [] then None
    else if t[0] == '>' then Some(0)
    else if IsLineTerminator(t[0]) then None
    else
      var r := Close(t[1..]);
      if r.Some? then Some(r.value + 1) else None
  }

  /** The two passes of createBody: user mentions `<@X>` and channel mentions `<#X>`, with what they look names up in. */
  datatype Mention =
    | UserMention(users: UserMap, decode: string -> string)
    | ChannelMention(channels: ChannelMap)

  function Sigil(p: Mention): char {
    if p.UserMention? then '@' else '#'
  }

  /** `s` starts with `<` and the pass's sigil. */
  predicate Opens(s: string, p: Mention) {
    |s| >= 2 && s[0] == '<' && s[1] == Sigil(p)
  }

  /**
   * `s.replace(/<SIGIL(.*?)>/g, callback)`: matches are tried left to right; a
   * match is replaced by the callback's text for the captured id and the search
   * resumes after it; where no match starts, the character is copied.
   */
  function Rewrite(s: string, p: Mention): string
    decreases |s|
  {
    if s == [] then []
    else if Opens(s, p) && Close(s[2..]).Some? then
      var j := Close(s[2..]).value;
      Replacement(p, s[2..2 + j]) + Rewrite(s[3 + j..], p)
    else [s[0]] + Rewrite(s[1..], p)
  }

  /** Text without `<` followed by the sigil has no match and is returned as it is. */
  lemma {:induction false} RewriteNoMatch(s: string, p: Mention)
    requires forall i | 0 <= i < |s| - 1 :: !(s[i] == '<' && s[i + 1] == Sigil(p))
    ensures Rewrite(s, p) == s
  {
    if s != [] {
      assert !Opens(s, p);
      RewriteNoMatch(s[1..], p);
    }
  }

  /** A token `<SIGIL x>` whose `x` has no `>` and no line terminator is replaced by the callback's text for x. */
  lemma RewriteToken(x: string, rest: string, p: Mention)
    requires forall k | 0 <= k < |x| :: x[k] != '>' && !IsLineTerminator(x[k])
    ensures Rewrite(['<', Sigil(p)] + x + ">" + rest, p) == Replacement(p, x) + Rewrite(rest, p)
  {
    var s := ['<', Sigil(p)] + x + ">" + rest;
    assert s[2..] == x + ">" + rest;
    CloseAfter(x, rest);
    assert s[2..2 + |x|] == x;
    assert s[3 + |x|..] == rest;
  }

  lemma {:induction false} CloseAfter(x: string, rest: string)
    requires forall k | 0 <= k < |x| :: x[k] != '>' && !IsLineTerminator(x[k])
    ensures Close(x + ">" + rest) == Some(|x|)
  {
    if x != [] {
      assert (x + ">" + rest)[1..] == x[1..] + ">" + rest;
      CloseAfter(x[1..], rest);
    }
  }

  /** Text without `<` is copied, and the search goes on behind it. */
  lemma {:induction false} RewritePrefix(pre: string, s: string, p: Mention)
    requires '<' !in pre
    ensures Rewrite(pre + s, p) == pre + Rewrite(s, p)
  {
    if pre != [] {
      assert (pre + s)[0] == pre[0];
      assert (pre + s)[1..] == pre[1..] + s;
      RewritePrefix(pre[1..], s, p);
    } else {
      assert pre + s == s;
    }
  }

  /** An opening `<SIGIL` whose text meets a line terminator before any `>` is not a match and is copied. */
  lemma RewriteUnclosed(x: string, c: char, rest: string, p: Mention)
    requires forall k | 0 <= k < |x| :: x[k] != '>' && !IsLineTerminator(x[k])
    requires IsLineTerminator(c)
    ensures Rewrite(['<', Sigil(p)] + x + [c] + rest, p) == "<" + Rewrite([Sigil(p)] + x + [c] + rest, p)
  {
    var s := ['<', Sigil(p)] + x + [c] + rest;
    assert s[2..] == x + [c] + rest;
    CloseBlocked(x, c, rest);
    assert s[1..] == [Sigil(p)] + x + [c] + rest;
  }

  lemma {:induction false} CloseBlocked(x: string, c: char, rest: string)
    requires forall k | 0 <= k < |x| :: x[k] != '>' && !IsLineTerminator(x[k])
    requires IsLineTerminator(c)
    ensures Close(x + [c] + rest) == None
  {
    if x != [] {
      assert (x + [c] + rest)[1..] == x[1..] + [c] + rest;
      CloseBlocked(x[1..], c, rest);
    }
  }

  // ---------------------------------------------------------------------------
  // Names

  /**
   * getMessageUserName: the display name decoded with `decode` (decodeURI)
   * when it is not empty, otherwise the account name; never the real name.
   */
  function MessageUserName(u: User, decode: string -> string): (name: string)
    ensures u.profile.displayName != "" ==> name == decode(u.profile.displayName)
    ensures u.profile.displayName == "" ==> name == u.name
  {
    if u.profile.displayName != "" then decode(u.profile.displayName) else u.name
  }

  /**
   * The callbacks' text for the id x: `<@X>` gives the known user's name, else
   * X, after `@`; `<#X>` gives the known channel's name after `#`, else X after `@`.
   */
  function Replacement(p: Mention, x: string): string {
    match p
    case UserMention(users, decode) =>
      var user := JsMap.Get(users, x);
      if user.Some? then "`@" + MessageUserName(user.value, decode) + "`" else "`@" + x + "`"
    case ChannelMention(channels) =>
      var channel := JsMap.Get(channels, x);
      if channel.Some? then "`#" + channel.value.name + "`" else "`@" + x + "`"
  }

  // ---------------------------------------------------------------------------
  // createBody

  /** createBody: user mentions, then channel mentions, then line feeds. */
  function CreateBody(m: Message, channels: ChannelMap, users: UserMap, decode: string -> string): string {
    var withUsers := Rewrite(m.text, UserMention(users, decode));
    var withChannels := Rewrite(withUsers, ChannelMention(channels));
    BreakLines(withChannels)
  }

  /** The body is a single line: line feeds, in the text or in a substituted name, are all `<br>`. */
  lemma BodyIsOneLine(m: Message, channels: ChannelMap, users: UserMap, decode: string -> string)
    ensures '\n' !in CreateBody(m, channels, users, decode)
  {
  }

  /** Text with no `<@`, no `<#` and no line feed is the body as it is. */
  lemma BodyUnchanged(m: Message, channels: ChannelMap, users: UserMap, decode: string -> string)
    requires forall i | 0 <= i < |m.text| - 1 :: !(m.text[i] == '<' && (m.text[i + 1] == '@' || m.text[i + 1] == '#'))
    requires '\n' !in m.text
    ensures CreateBody(m, channels, users, decode) == m.text
  {
    RewriteNoMatch(m.text, UserMention(users, decode));
    RewriteNoMatch(m.text, ChannelMention(channels));
    BreakLinesUnchanged(m.text);
  }

  /** A user mention is replaced by `` `@name` `` for a known id and by `` `@X` `` otherwise. */
  lemma UserMentionReplaced(x: string, rest: string, users: UserMap, decode: string -> string)
    requires forall k | 0 <= k < |x| :: x[k] != '>' && !IsLineTerminator(x[k])
    ensures JsMap.HasKey(users, x) ==>
      Rewrite("<@" + x + ">" + rest, UserMention(users, decode))
        == "`@" + MessageUserName(JsMap.Get(users, x).value, decode) + "`" + Rewrite(rest, UserMention(users, decode))
    ensures !JsMap.HasKey(users, x) ==>
      Rewrite("<@" + x + ">" + rest, UserMention(users, decode))
        == "`@" + x + "`" + Rewrite(rest, UserMention(users, decode))
  {
    RewriteToken(x, rest, UserMention(users, decode));
  }

  /** A channel mention is replaced by `` `#name` `` for a known id and by `` `@X` `` otherwise. */
  lemma ChannelMentionReplaced(x: string, rest: string, channels: ChannelMap)
    requires forall k | 0 <= k < |x| :: x[k] != '>' && !IsLineTerminator(x[k])
    ensures JsMap.HasKey(channels, x) ==>
      Rewrite("<#" + x + ">" + rest, ChannelMention(channels))
        == "`#" + JsMap.Get(channels, x).value.name + "`" + Rewrite(rest, ChannelMention(channels))
    ensures !JsMap.HasKey(channels, x) ==>
      Rewrite("<#" + x + ">" + rest, ChannelMention(channels))
        == "`@" + x + "`" + Rewrite(rest, ChannelMention(channels))
  {
    RewriteToken(x, rest, ChannelMention(channels));
  }

  // ---------------------------------------------------------------------------
  // createHeader

  const NoUserInformation: string := "There is no user information."

  /**
   * createHeader: `**name** time` for the user with the message's id,
   * prefixed by `![](image24) ` when that image is set; else `**username**
   * time` for a truthy username; else the error it throws. The time is local:
   * `offset` gives the host's offset from UTC. The three templates share the
   * closing `** time`, so the header is its lead followed by that.
   */
  function CreateHeader(m: Message, users: UserMap, offset: int -> int, decode: string -> string): Result<string, string> {
    if JsMap.HasKey(users, m.user) || TruthyString(m.username) then Ok(HeaderLead(m, users, decode) + ("** " + Time.LocalTime(m.timeStamp, offset)))
    else Err(NoUserInformation)
  }

  /** What createHeader writes before the closing `** ` and the time: image and name of a known user, else the username. */
  function HeaderLead(m: Message, users: UserMap, decode: string -> string): string
    requires JsMap.HasKey(users, m.user) || TruthyString(m.username)
  {
    var user := JsMap.Get(users, m.user);
    if user.Some? then
      if user.value.profile.image24 != "" then "![](" + user.value.profile.image24 + ") **" + MessageUserName(user.value, decode)
      else "**" + MessageUserName(user.value, decode)
    else "**" + m.username.value
  }

  /** The header fails exactly when the user id is unknown and there is no username. */
  lemma HeaderFails(m: Message, users: UserMap, offset: int -> int, decode: string -> string)
    ensures CreateHeader(m, users, offset, decode).Err? <==> !JsMap.HasKey(users, m.user) && !TruthyString(m.username)
    ensures CreateHeader(m, users, offset, decode).Err? ==> CreateHeader(m, users, offset, decode).error == NoUserInformation
  {
  }

  /** The name in bold, then a space and the `hh:mm` time; for a known user with an image, the image first. */
  lemma HeaderShape(m: Message, users: UserMap, offset: int -> int, decode: string -> string)
    requires CreateHeader(m, users, offset, decode).Ok?
    ensures var h := CreateHeader(m, users, offset, decode).value;
      EndsWith(h, "** " + Time.LocalTime(m.timeStamp, offset)) && |Time.LocalTime(m.timeStamp, offset)| == 5
    ensures var h := CreateHeader(m, users, offset, decode).value;
      var user := JsMap.Get(users, m.user);
      if user.Some? && user.value.profile.image24 != "" then h[..4] == "![](" else h[..2] == "**"
  {
    LocalTimeShape(m.timeStamp, offset);
    var time := Time.LocalTime(m.timeStamp, offset);
    var user := JsMap.Get(users, m.user);
    var lead := HeaderLead(m, users, decode);
    if user.Some? && user.value.profile.image24 != "" {
      assert lead[..4] == "![](";
      Framed(lead, "** " + time, 4);
    } else {
      assert lead[..2] == "**";
      Framed(lead, "** " + time, 2);
    }
  }

  lemma LocalTimeShape(ts: string, offset: int -> int)
    ensures |Time.LocalTime(ts, offset)| == 5
  {
    var secs := Time.Clock(ts);
    Time.HhMmShape(if secs.Some? then Some(secs.value + offset(secs.value)) else None);
  }

  /** `x + y` starts with the first k characters of x and ends with y. */
  lemma Framed(x: string, y: string, k: nat)
    requires k <= |x|
    ensures (x + y)[..k] == x[..k] && EndsWith(x + y, y)
  {
    assert (x + y)[|x + y| - |y|..] == y;
  }

  /** A known user is shown under the message's user id even for a message with a username. */
  lemma HeaderPrefersUser(m: Message, users: UserMap, offset: int -> int, decode: string -> string)
    requires JsMap.HasKey(users, m.user)
    ensures CreateHeader(m, users, offset, decode).Ok?
    ensures var u := JsMap.Get(users, m.user).value;
      u.profile.image24 == "" ==>
        CreateHeader(m, users, offset, decode).value == "**" + MessageUserName(u, decode) + "** " + Time.LocalTime(m.timeStamp, offset)
  {
    var u := JsMap.Get(users, m.user).value;
    Assoc("**" + MessageUserName(u, decode), "** ", Time.LocalTime(m.timeStamp, offset));
  }

  // ---------------------------------------------------------------------------
  // messagesToMarkdown

  /** One message as two table rows. */
  function Row(header: string, body: string): string {
    "|" + header + "|\n|" + body + "|\n"
  }

  /** A message's rows, or the error its header throws. */
  function RowOf(m: Message, channels: ChannelMap, users: UserMap, offset: int -> int, decode: string -> string): Result<string, string> {
    var header := CreateHeader(m, users, offset, decode);
    if header.Err? then Err(header.error) else Ok(Row(header.value, CreateBody(m, channels, users, decode)))
  }

  /** The rows of every message, in order. */
  function Rows(messages: seq<Message>, channels: ChannelMap, users: UserMap, offset: int -> int, decode: string -> string): (rs: seq<Result<string, string>>)
    ensures |rs| == |messages|
    ensures forall i | 0 <= i < |messages| :: rs[i] == RowOf(messages[i], channels, users, offset, decode)
  {
    if messages == [] then []
    else [RowOf(messages[0], channels, users, offset, decode)] + Rows(messages[1..], channels, users, offset, decode)
  }

  /**
   * The pieces joined in order, or the error of the first piece that failed:
   * what a loop that appends and lets an exception escape produces.
   */
  function Join(cells: seq<Result<string, string>>): Result<string, string>
    decreases |cells|
  {
    if cells == [] then Ok("")
    else
      var init := Join(cells[..|cells| - 1]);
      var last := cells[|cells| - 1];
      if init.Err? then init
      else if last.Err? then Err(last.error)
      else Ok(init.value + last.value)
  }

  /** messagesToMarkdown: the loop appends one message's rows per iteration; a header error ends it. */
  method MessagesToMarkdown(messages: seq<Message>, channels: ChannelMap, users: UserMap, offset: int -> int, decode: string -> string)
    returns (r: Result<string, string>)
    ensures r == Join(Rows(messages, channels, users, offset, decode))
  {
    ghost var cells := Rows(messages, channels, users, offset, decode);
    var md := "";
    var i := 0;
    while i < |messages|
      invariant 0 <= i <= |messages|
      invariant Join(cells[..i]) == Ok(md)
    {
      var header := CreateHeader(messages[i], users, offset, decode);
      assert cells[..i + 1][..i] == cells[..i] && cells[..i + 1][i] == cells[i];
      assert cells[i] == RowOf(messages[i], channels, users, offset, decode);
      if header.Err? {
        JoinFailsFrom(cells, i + 1);
        return Err(header.error);
      }
      var body := CreateBody(messages[i], channels, users, decode);
      md := md + Row(header.value, body);
      i := i + 1;
    }
    assert cells[..i] == cells;
    r := Ok(md);
  }

  /** Once a prefix fails, every longer prefix fails the same way. */
  lemma {:induction false} JoinFailsFrom(cells: seq<Result<string, string>>, i: nat)
    requires 0 < i <= |cells| && Join(cells[..i]).Err?
    ensures Join(cells) == Join(cells[..i])
    decreases |cells| - i
  {
    if i < |cells| {
      var t := cells[..i + 1];
      assert t[..|t| - 1] == cells[..i];
      JoinFailsFrom(cells, i + 1);
    } else {
      assert cells[..i] == cells;
    }
  }

  /** Joining two lists joins their results, the first error winning. */
  lemma {:induction false} JoinAppend(a: seq<Result<string, string>>, b: seq<Result<string, string>>)
    ensures Join(a + b) == if Join(a).Err? then Join(a) else if Join(b).Err? then Join(b) else Ok(Join(a).value + Join(b).value)
    decreases |b|
  {
    if b == [] {
      assert a + b == a;
      if Join(a).Ok? {
        assert Join(a).value + "" == Join(a).value;
      }
    } else {
      var b' := b[..|b| - 1];
      assert (a + b)[..|a + b| - 1] == a + b';
      assert (a + b)[|a + b| - 1] == b[|b| - 1];
      JoinAppend(a, b');
      if Join(a).Ok? && Join(b').Ok? && b[|b| - 1].Ok? {
        assert Join(a).value + Join(b').value + b[|b| - 1].value == Join(a).value + (Join(b').value + b[|b| - 1].value);
      }
    }
  }

  /** The join fails exactly when some piece does, with the error of the first such piece. */
  lemma {:induction false} JoinFails(cells: seq<Result<string, string>>)
    ensures Join(cells).Err? <==> exists i | 0 <= i < |cells| :: cells[i].Err?
    ensures Join(cells).Err? ==> exists i | 0 <= i < |cells| :: cells[i] == Join(cells) && forall j | 0 <= j < i :: cells[j].Ok?
    decreases |cells|
  {
    if cells != [] {
      var n := |cells| - 1;
      var init := cells[..n];
      JoinFails(init);
      assert forall i | 0 <= i < n :: init[i] == cells[i];
    }
  }

  /** With every piece present, the join is their concatenation in order. */
  lemma {:induction false} JoinOk(cells: seq<Result<string, string>>)
    requires forall i | 0 <= i < |cells| :: cells[i].Ok?
    ensures Join(cells).Ok?
    ensures cells != [] ==> Join(cells).value == Join(cells[..|cells| - 1]).value + cells[|cells| - 1].value
  {
    JoinFails(cells);
  }

  /** Rows of two lists are the two lists' rows, so the table of a join is the join of the tables. */
  lemma {:induction false} RowsAppend(a: seq<Message>, b: seq<Message>, channels: ChannelMap, users: UserMap, offset: int -> int, decode: string -> string)
    ensures Rows(a + b, channels, users, offset, decode) == Rows(a, channels, users, offset, decode) + Rows(b, channels, users, offset, decode)
    ensures var ta, tb := Join(Rows(a, channels, users, offset, decode)), Join(Rows(b, channels, users, offset, decode));
      Join(Rows(a + b, channels, users, offset, decode)) ==
        if ta.Err? then ta else if tb.Err? then tb else Ok(ta.value + tb.value)
  {
    var ra, rb := Rows(a, channels, users, offset, decode), Rows(b, channels, users, offset, decode);
    var rab := Rows(a + b, channels, users, offset, decode);
    assert forall i | 0 <= i < |a + b| :: rab[i] == (ra + rb)[i] by {
      forall i | 0 <= i < |a + b| ensures rab[i] == (ra + rb)[i] {
        if i < |a| { assert (a + b)[i] == a[i]; } else { assert (a + b)[i] == b[i - |a|]; }
      }
    }
    assert rab == ra + rb;
    JoinAppend(ra, rb);
  }

  /** No messages give an empty document body. */
  lemma NoMessages(channels: ChannelMap, users: UserMap, offset: int -> int, decode: string -> string)
    ensures Join(Rows([], channels, users, offset, decode)) == Ok("")
  {
  }

  /** The table fails exactly when some message has neither a known user nor a username, and it then throws createHeader's error. */
  lemma TableFailsIff(messages: seq<Message>, channels: ChannelMap, users: UserMap, offset: int -> int, decode: string -> string)
    ensures Join(Rows(messages, channels, users, offset, decode)).Err? <==>
      exists i | 0 <= i < |messages| :: !JsMap.HasKey(users, messages[i].user) && !TruthyString(messages[i].username)
    ensures Join(Rows(messages, channels, users, offset, decode)).Err? ==>
      Join(Rows(messages, channels, users, offset, decode)).error == NoUserInformation
  {
    var cells := Rows(messages, channels, users, offset, decode);
    JoinFails(cells);
    forall i | 0 <= i < |messages|
      ensures cells[i].Err? <==> !JsMap.HasKey(users, messages[i].user) && !TruthyString(messages[i].username)
      ensures cells[i].Err? ==> cells[i].error == NoUserInformation
    {
      HeaderFails(messages[i], users, offset, decode);
    }
  }
}
