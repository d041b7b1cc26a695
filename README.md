# slack-log2md in Dafny

A model of the converter core of `slack-log2md`. The converter turns a Slack
workspace export into Markdown. An export is a directory holding
`channels.json`, `users.json` and one sub-directory per channel whose
`*.json` files are daily message logs. The converter writes one directory per
channel holding one Markdown table per log. The table has a four-column head,
and each message adds two single-cell rows under it: a header row (avatar,
poster name and local `hh:mm`) and a body row (the message text, with user
and channel mentions rewritten and line breaks turned into `<br>`).

Modules, one per source file plus shared pieces:

- `Wrappers`: `Option` and `Result`.
- `Json`: the parsed JSON value that `JSON.parse` hands to the parsers. It covers JavaScript truthiness, `x || d`, and the verbatim copy of an optional field.
- `Text`:
  - `unescapeStr`, which removes only the first backslash;
  - the `\n` → `<br>` replacement.
- `JsMap`: a JavaScript `Map` as an ordered association list. `set` keeps an existing key's position and overwrites its value.
- `Messages`, `Channels`, `Users`: the entity parsers of `message.ts`, `channel.ts` and `user.ts`. The pushing loops are methods proved against the functions that give their result.
- `Time`: `formatDate(tsToDate(ts), 'hh:mm')`. How it is modelled:
  - The time stamp string is read as a decimal numeral, exactly, instead of as a float.
  - Its Date time value is taken in whole milliseconds, within the Date range.
  - Hour and minute are integer seconds with div/mod.
  - An invalid date prints `aN:aN`.
- `Metadata`: `getUser`, `getName`, `getImageURL` and `getMetadata`. `getUser` is a loop with an early return.
- `Markdown`:
  - `getMessageUserName`, `createHeader`, `createBody` and `messagesToMarkdown`;
  - the regular expressions `<@(.*?)>` and `<#(.*?)>` as a left-to-right scanner.
- `Log2Md`: the directory walk, the filters and readers, assembly of the per-log documents, and `log2Md`. How it is modelled:
  - The filesystem is a map from paths to files (with their parsed JSON, or none when the text is not JSON) and directories (with their listings).
  - A run is the sequence of directories made and files written, and the error that stopped it, if any.

## Model

| member | source | states |
|---|---|---|
| Json.Truthy | src/lib/message.ts:142-144 | JavaScript truthiness: `false`, `0`, `''`, `null` and `undefined` are falsy, every array and object is truthy |
| Json.Nullish | src/lib/message.ts:142 | the values whose property access throws a TypeError: `undefined` and `null` |
| Json.TruthyString | src/lib/metadata.ts:118 | the truthiness of an optional copied string: present and not `''` |
| Json.Get | src/lib/message.ts:142-144 | `obj.key`: the field's value, or `undefined` when the object has no such field or the value is not an object |
| Json.Or | src/lib/message.ts:142-144 | `x \|\| d`: `x` when it is truthy, else `d` |
| Json.OrEmpty | src/lib/message.ts:142 | a string field read with `x \|\| ''` is the field's string when truthy and `''` otherwise |
| Json.OrZero | src/lib/message.ts:144 | a number field read with `x \|\| 0` is the number when truthy, else 0 |
| Json.OrFalse | src/lib/channel.ts:97-98 | a flag read with `x \|\| false` is the flag when truthy, else false |
| Json.OrNoStrings | src/lib/message.ts:143 | a string list read with `x \|\| []` is the list when present, else empty |
| Json.StringsOf | src/lib/message.ts:6 | a JSON array of strings read back as the list of its strings |
| Json.OptString | src/lib/message.ts:249-267 | an optional string copied verbatim; undefined or null both read as absent |
| Json.OptNumber | src/lib/message.ts:260-261 | an optional number copied verbatim |
| Json.OptBool | src/lib/message.ts:266 | an optional flag copied verbatim |
| Json.OptStrings | src/lib/message.ts:263 | an optional string list copied verbatim |
| Json.TruthyStringAgrees | src/lib/metadata.ts:118 | the truthiness of a copied optional string is the truthiness of the JSON value it came from |
| Json.StringsRoundTrip | src/lib/message.ts:143 | a string list written as JSON reads back unchanged |
| Json.OptionalRoundTrips | src/lib/message.ts:249-267 | every optional value written as JSON reads back as itself |
| Json.OrRoundTrips | src/lib/message.ts:142-144 | every defaulted value written as JSON reads back as itself |
| Text.UnescapeStr | src/lib/message.ts:125-127 | a string with no backslash is unchanged; otherwise the result is exactly one character shorter |
| Text.UnescapeStrRemovesFirst | src/lib/message.ts:126 | the character removed is the first backslash, and the text before and after it is kept |
| Text.UnescapeStrEscaped | src/lib/user.ts:108-110 | a leading backslash is dropped and the rest kept |
| Text.UnescapeStrPrefix | src/lib/user.ts:108-110 | a backslash-free prefix passes through and the rest is unescaped |
| Text.UnescapeStrNotIdempotent | src/lib/user.ts:108-110 | with two or more backslashes, unescaping twice differs from unescaping once |
| Text.UnescapeStrExample | src/lib/user.ts:164 | `Asia\/Tokyo` becomes `Asia/Tokyo` |
| Text.BreakLines | src/lib/markdown.ts:174 | the result has no `\n` |
| Text.BreakLinesUnchanged | src/lib/markdown.ts:174 | text without `\n` is unchanged |
| Text.BreakLinesAppend | src/lib/markdown.ts:174 | the replacement distributes over concatenation |
| Text.BreakLinesAtNewline | src/lib/markdown.ts:174 | each `\n` becomes `<br>` with the text on both sides kept |
| JsMap.Keys | src/lib/log2md.ts:100 | the keys of a map in iteration order, one per entry |
| JsMap.HasKey | src/lib/metadata.ts:126 | `map.has(k)`: some entry has key k |
| JsMap.Get | src/lib/metadata.ts:126 | `get` finds a value exactly when the key is present, and the value is that key's entry |
| JsMap.GetEntry | src/lib/metadata.ts:126 | in a map with unique keys, `get` of an entry's key gives that entry's value |
| JsMap.HasKeyTail | src/lib/metadata.ts:126 | a key other than the first entry's is in the map iff it is in the rest |
| JsMap.Set | src/lib/log2md.ts:104 | `set` keeps the size for a present key and grows it by one otherwise |
| JsMap.SetKeys | src/lib/log2md.ts:104 | `set` keeps the key order and appends a new key at the end |
| JsMap.SetGet | src/lib/log2md.ts:104 | after `set`, `get` of that key gives the new value and every other key is unchanged |
| JsMap.SetUnique | src/lib/log2md.ts:104 | `set` keeps the keys unique |
| JsMap.FromPairs | src/lib/log2md.ts:100-105 | a new Map filled by `set` of each pair in turn |
| JsMap.LastValue | src/lib/log2md.ts:100-105 | the reference for the filled map's `get`: the value of the last pair with that key, none if no pair has it |
| JsMap.Distinct | src/lib/log2md.ts:100-105 | the reference for the filled map's key order: the keys with later repeats dropped, in first-seen order |
| JsMap.FromPairsUnique | src/lib/log2md.ts:100-105 | a map filled by repeated `set` has unique keys |
| JsMap.FromPairsGet | src/lib/log2md.ts:100-105 | `get` on it gives the value of the last pair with that key |
| JsMap.FromPairsKeys | src/lib/log2md.ts:100-105 | its keys are the pairs' keys with repeats removed, in first-seen order |
| JsMap.FromPairsHasKey | src/lib/log2md.ts:100-105 | a key is present iff some pair has it |
| JsMap.LastValueSome | src/lib/log2md.ts:100-105 | every pair's key has a last value |
| JsMap.LastValueNone | src/lib/log2md.ts:100-105 | a key no pair has has no value |
| JsMap.LaterPairWins | src/lib/log2md.ts:100-105 | a pair with no later pair of the same key is the one `get` finds |
| JsMap.LastWins | src/lib/log2md.ts:100-105 | the same, for the last value of the pairs |
| Messages.ToReaction | src/lib/message.ts:141-145 | a reaction's name, users and count, each defaulted to `''`, `[]` or 0 when falsy |
| Messages.Reactions | src/lib/message.ts:134-149 | what parseReactions returns: `[]` for a non-array, else one reaction per element in order |
| Messages.ParseReactions | src/lib/message.ts:134-149 | `[]` for a non-array; otherwise the same length, with element i built from input element i |
| Messages.ToReply | src/lib/message.ts:163-166 | a reply's user and its `ts` time stamp, each `''` when falsy |
| Messages.Replies | src/lib/message.ts:156-170 | what parseReplies returns: `[]` for a non-array, else one reply per element in order |
| Messages.ParseReplies | src/lib/message.ts:156-170 | `[]` for a non-array; otherwise the same length and order |
| Messages.ToFile | src/lib/message.ts:183-185 | a file's permalink, `''` when falsy |
| Messages.Files | src/lib/message.ts:177-190 | what parseFiles returns: `[]` for a non-array, else one file per element in order |
| Messages.ParseFiles | src/lib/message.ts:177-190 | `[]` for a non-array; otherwise the same length and order |
| Messages.ToAttachment | src/lib/message.ts:203-207 | an attachment's fallback, pretext and text, each `''` when falsy |
| Messages.Attachments | src/lib/message.ts:197-212 | what parseAttachments returns: `[]` for a non-array, else one attachment per element in order |
| Messages.ParseAttachments | src/lib/message.ts:197-212 | `[]` for a non-array; otherwise the same length and order |
| Messages.ParseUserProfile | src/lib/message.ts:219-231 | every field defaulted; `image_72` unescaped when truthy, else `''` |
| Messages.ParseMessage | src/lib/message.ts:238-269 | the five string fields (timeStamp from `ts`) defaulted to `''`; the four lists always lists; the profile parsed only when truthy; every other field copied from its snake_case key |
| Messages.ReactionRoundTrip | src/lib/message.ts:141-145 | a reaction written as JSON parses back to itself |
| Messages.ReactionsRoundTrip | src/lib/message.ts:134-149 | a reaction list written as a JSON array parses back to itself |
| Messages.RepliesRoundTrip | src/lib/message.ts:156-170 | the same, for replies |
| Messages.FilesRoundTrip | src/lib/message.ts:177-190 | the same, for files |
| Messages.AttachmentsRoundTrip | src/lib/message.ts:197-212 | the same, for attachments |
| Messages.ParseEncodedProfile | src/lib/message.ts:219-231 | a profile encoded as an object that `parseUserProfile` accepts parses back to itself |
| Messages.EncodedIsShaped | src/lib/message.ts:238-269 | the JSON encoding of a message is the shape the parser expects |
| Messages.ParsedHead | src/lib/message.ts:240-256 | an encoded message's strings, lists and profile parse back unchanged |
| Messages.ParsedExtras | src/lib/message.ts:249-267 | an encoded message's optional fields parse back unchanged |
| Messages.ParseEncoded | src/lib/message.ts:238-269 | an encoded message parses back to itself |
| Users.ParseProfile | src/lib/user.ts:117-149 | every profile field copied verbatim as whatever JSON value it holds, `undefined` when missing (the names and the bot id, required to be strings, as strings); the seven sized images go through `unescapeStr` (`image_original` does not) |
| Users.ParseUser | src/lib/user.ts:156-177 | every user field copied verbatim as whatever JSON value it holds (`id` and `name`, required to be strings, as strings); `tz` goes through `unescapeStr`; the profile is `parseProfile(obj.profile)` |
| Users.ProfileImagesRoundTrip | src/lib/user.ts:133-139 | images stored with one escaped slash unescape to themselves |
| Users.ProfileBotIdRoundTrip | src/lib/user.ts:145 | an encoded optional bot id reads back verbatim |
| Users.ParseEncodedProfile | src/lib/user.ts:117-149 | an encoded profile parses back to itself |
| Users.ParseEncodedUser | src/lib/user.ts:156-177 | an encoded user parses back to itself |
| Users.TimeZoneExample | src/lib/user.ts:164 | `tz` `Asia\/Tokyo` gives the time zone `Asia/Tokyo` |
| Channels.ParseHeaderMessage | src/lib/channel.ts:54-60 | value, creator and `last_set` copied verbatim, with no default |
| Channels.ToPin | src/lib/channel.ts:74-80 | id, type, user and owner `''` when falsy, created 0 when falsy |
| Channels.Pins | src/lib/channel.ts:67-84 | what parsePins returns: `[]` for a non-array, else one pin per element in order |
| Channels.ParsePins | src/lib/channel.ts:67-84 | `[]` for a non-array; otherwise the same length, element i built from input element i |
| Channels.ParseChannel | src/lib/channel.ts:91-104 | id, name, created and creator `''` when falsy, flags false, members `[]`; purpose and topic parsed; pins parsed when truthy and `[]` otherwise |
| Channels.PinsGuardRedundant | src/lib/channel.ts:102 | the pins guard changes nothing: a falsy `pins` field is not an array, so it parses to `[]` too |
| Channels.PinRoundTrip | src/lib/channel.ts:74-80 | a pin written as JSON parses back to itself |
| Channels.PinsRoundTrip | src/lib/channel.ts:67-84 | a pin list written as a JSON array parses back to itself |
| Channels.HeaderMessageRoundTrip | src/lib/channel.ts:54-60 | a header message written as JSON parses back to itself |
| Channels.ParseEncoded | src/lib/channel.ts:91-104 | an encoded channel parses back to itself; `created` is kept exactly as given |
| Time.DigitChar | src/lib/metadata.ts:37-38 | the decimal digit character of a digit value |
| Time.IsStrWhiteSpace | src/lib/metadata.ts:105 | the white space and line terminators `Number` trims (StrWhiteSpaceChar, section 7.1.4.1 of ECMA-262) |
| Time.ValidNumeral | src/lib/metadata.ts:105 | the decimal numerals `Number` reads: an optional sign, digits, at least one digit, a fraction only after a dot |
| Time.Render | src/lib/metadata.ts:105 | a numeral written out: sign, whole digits, then the dot and fraction if it has a dot |
| Time.Magnitude | src/lib/metadata.ts:105 | the whole milliseconds of `Number(ts) * 1000` for a valid numeral, sign left aside |
| Time.OutOfRange | src/lib/metadata.ts:105 | the numerals whose time lies beyond 8.64e15 ms, which `new Date` makes an invalid date |
| Time.Seconds | src/lib/metadata.ts:104-106 | the second of a millisecond time value, rounded down; none for an invalid date |
| Time.SecondOf | src/lib/metadata.ts:104-106 | the same second computed on the digits: the whole part, one less for a negative stamp with a nonzero millisecond part; none for an invalid numeral or date |
| Time.NatString | src/lib/metadata.ts:37-38 | `String(n)`: decimal digits whose value is n |
| Time.TrimStart | src/lib/metadata.ts:105 | `Number` skips leading white space: the result is a suffix with no white space at its head |
| Time.TrimEnd | src/lib/metadata.ts:105 | the same for trailing white space |
| Time.DigitPrefix | src/lib/metadata.ts:105 | the length of the leading run of digits |
| Time.ScanNumeral | src/lib/metadata.ts:105 | a numeral read from a string is valid and is written exactly as the string |
| Time.ScanNumeralIff | src/lib/metadata.ts:105 | a string is read as numeral n iff n is valid and the string is n written out |
| Time.ScanRendered | src/lib/metadata.ts:105 | every valid numeral written out is read back as itself |
| Time.DigitsBelow | src/lib/metadata.ts:105 | k digits are worth less than 10^k |
| Time.Millis3 | src/lib/metadata.ts:105 | the whole milliseconds of a fraction are below 1000 |
| Time.NumberOfUntrimmed | src/lib/metadata.ts:105 | a string without outer white space is read as it stands |
| Time.DecimalUntrimmed | src/lib/metadata.ts:105 | a `digits.digits` time stamp is read as it stands |
| Time.ReadsDecimal | src/lib/metadata.ts:105 | a `digits.digits` time stamp is the unsigned decimal numeral |
| Time.ReadsInteger | src/lib/metadata.ts:105 | a digit string is the unsigned integer numeral |
| Time.SecondOfTimeValue | src/lib/metadata.ts:104-106 | the second computed on the digits is the millisecond time value divided by 1000, rounded down |
| Time.FractionBelowSecond | src/lib/metadata.ts:104-106 | an unsigned time stamp in the Date range falls in the second of its whole part |
| Time.DecimalClock | src/lib/metadata.ts:104-106 | a decimal time stamp's second is that of its numeral |
| Time.IntegerClock | src/lib/metadata.ts:104-106 | the same, for an integer time stamp |
| Time.ClockOf | src/lib/metadata.ts:104-106 | the second of a time stamp is the second of the numeral it reads as |
| Time.PositiveSecond | src/lib/metadata.ts:104-106 | an unsigned numeral in range falls in the second of its whole part |
| Time.IntegerSecond | src/lib/metadata.ts:104-106 | the same, for an integer numeral |
| Time.FractionIgnored | src/lib/metadata.ts:104-106 | the UTC time of a time stamp does not depend on its fraction of a second |
| Time.NumberOf | src/lib/metadata.ts:105 | `Number(ts)`: blanks trimmed at both ends, the empty string is 0, a decimal numeral is read exactly, anything else is NaN |
| Time.TimeValue | src/lib/metadata.ts:105 | the time value of `new Date(Number(ts) * 1000)` in milliseconds, truncated toward zero; none, an invalid date, for NaN or beyond 8.64e15 ms |
| Time.Clock | src/lib/metadata.ts:104-106 | the second of the Date a time stamp makes, rounded down; none for an invalid date |
| Time.Hour | src/lib/metadata.ts:29 | the UTC hour is in 0..23 |
| Time.Minute | src/lib/metadata.ts:31 | the UTC minute is in 0..59 |
| Time.Pad2 | src/lib/metadata.ts:37-38 | `('0' + v).slice(-2)`: the last two characters of `0` followed by the number; `aN` for NaN |
| Time.HhMm | src/lib/metadata.ts:37-38 | `'hh:mm'` with the padded hour and minute put in; `aN:aN` for an invalid date |
| Time.UtcTime | src/lib/metadata.ts:200 | `formatDate(tsToDate(ts), 'hh:mm', true)`: the `hh:mm` of the stamp's UTC second |
| Time.LocalTime | src/lib/markdown.ts:120 | `formatDate(tsToDate(ts), 'hh:mm')`: the `hh:mm` of the stamp's second moved by the host's offset from UTC |
| Time.Pad2Digits | src/lib/metadata.ts:37-38 | `('0' + n).slice(-2)` is n's two digits for n below 100 |
| Time.TwoDigitsValue | src/lib/metadata.ts:37-38 | the two digits read back as the value they print |
| Time.HhMmChars | src/lib/metadata.ts:37-38 | `hh:mm` is the hour's two digits, a colon and the minute's two digits; an invalid date gives `aN:aN` |
| Time.HhMmShape | src/lib/metadata.ts:29-38 | five characters with `:` in the middle; for a valid date the fields read back as the hour and the minute |
| Time.HhMmIsFinal | src/lib/metadata.ts:40-96 | the `hh:mm` text holds no letter of a later pattern, so the later replacements leave it unchanged |
| Time.GettersAgree | src/lib/metadata.ts:29-31 | hour and minute from whole seconds equal the Date getters' values from the millisecond time value |
| Time.MatchesDateGetters | src/lib/metadata.ts:29-31 | the same for the time value of a numeral |
| Time.UtcTimeExamples | src/lib/metadata.test.ts:11-21 | time stamps whose whole part is 1569073381 or 1570172545 give `13:43` and `07:02` |
| Time.HhMmExamples | src/lib/metadata.test.ts:11-21 | the seconds 1569073381 and 1570172545 print as `13:43` and `07:02` |
| Metadata.FirstBot | src/lib/metadata.ts:118-124 | a bot user is found iff some user's profile names the message's bot, and the one found does |
| Metadata.UserFor | src/lib/metadata.ts:114-127 | what getUser returns: the first user whose profile names the message's truthy bot id; if there is none, `users.get(message.user)` |
| Metadata.IsBotOf | src/lib/metadata.ts:120 | `message.botId === user.profile.botId` for a message that has a bot id |
| Metadata.GetUser | src/lib/metadata.ts:114-127 | the loop returns the first bot match in iteration order when the message names a bot, else `users.get(message.user)` |
| Metadata.FirstBotAt | src/lib/metadata.ts:119-122 | a match with no match before it is the user the scan returns |
| Metadata.BotPoster | src/lib/metadata.ts:118-124 | a message naming a bot is given the first user that is that bot, even when its own user id is known |
| Metadata.UserIdPoster | src/lib/metadata.ts:126 | with no bot id, or no match, the poster is exactly `users.get(message.user)`, absent iff that id is not a key |
| Metadata.FirstNonEmpty | src/lib/metadata.ts:134-174 | the first non-empty name is `''` iff every candidate is empty |
| Metadata.FirstNonEmptyIsFirst | src/lib/metadata.ts:134-174 | a non-empty result is a candidate with only empty candidates before it |
| Metadata.FirstNonEmptyCons | src/lib/metadata.ts:134-174 | the first candidate decides when non-empty, else the rest decide |
| Metadata.NameFromUser | src/lib/metadata.ts:134-143 | the display name if non-empty, else the real name if non-empty, else `''` |
| Metadata.GetName | src/lib/metadata.ts:151-174 | getName: a truthy `username`; else the message profile's display name, then its real name; else the user's display name, then real name; else `''` |
| Metadata.NameIsFirstNonEmpty | src/lib/metadata.ts:151-174 | the name is the first non-empty one of: `username`, the message profile's display name and real name, the user's display name and real name |
| Metadata.NameEmpty | src/lib/metadata.ts:151-174 | the name is `''` exactly when all five candidates are |
| Metadata.GetImageURL | src/lib/metadata.ts:176-189 | the message's own profile image whenever it has a profile, even an empty one; else the user's image; else `''` |
| Metadata.GetMetadata | src/lib/metadata.ts:197-204 | getMetadata: the UTC `hh:mm` of the time stamp, with getName and getImageURL of the user getUser finds |
| Metadata.MetadataTime | src/lib/metadata.ts:200 | the time is the UTC `hh:mm` of the time stamp: five characters, colon in the middle |
| Metadata.BotMetadata | src/lib/metadata.ts:118-124 | for a bot message without a profile: named by `username` if truthy, else by the bot user; shown with the bot user's image |
| Metadata.ProfileMetadata | src/lib/metadata.ts:158-165 | a profile with a name decides name and image whatever the users say |
| Markdown.Close | src/lib/markdown.ts:154 | the lazy `(.*?)>` stops at the first `>` with no line terminator before it |
| Markdown.Rewrite | src/lib/markdown.ts:154-171 | `replace(/<@(.*?)>/g, f)` (or `<#`): matches tried left to right, each replaced by the callback's text, the search resuming after it, other characters copied |
| Markdown.IsLineTerminator | src/lib/markdown.ts:154 | the characters `.` in `/<@(.*?)>/` does not match: `\n`, `\r`, U+2028 and U+2029 |
| Markdown.Replacement | src/lib/markdown.ts:155-160 | the callbacks: `` `@name` `` for a known user, `` `#name` `` for a known channel, `` `@X` `` for an unknown id in either pass |
| Markdown.RewriteNoMatch | src/lib/markdown.ts:154-171 | text with no `<@` (or `<#`) passes through unchanged |
| Markdown.RewriteToken | src/lib/markdown.ts:154-171 | a token with no `>` or line terminator inside is replaced and the scan goes on after it |
| Markdown.CloseAfter | src/lib/markdown.ts:154 | the capture ends at the first `>` |
| Markdown.RewritePrefix | src/lib/markdown.ts:154-171 | text before the first `<` is copied through |
| Markdown.RewriteUnclosed | src/lib/markdown.ts:154-171 | an opening not closed before a line break is copied and the scan goes on after its `<` |
| Markdown.CloseBlocked | src/lib/markdown.ts:154 | a line terminator before any `>` stops the match |
| Markdown.MessageUserName | src/lib/markdown.ts:103-110 | the decoded display name if non-empty, else the account name, never the real name |
| Markdown.UserMentionReplaced | src/lib/markdown.ts:154-161 | `<@X>` becomes `` `@name` `` for a known X and `` `@X` `` otherwise |
| Markdown.ChannelMentionReplaced | src/lib/markdown.ts:164-171 | `<#X>` becomes `` `#channel-name` `` for a known X and `` `@X` `` otherwise |
| Markdown.CreateBody | src/lib/markdown.ts:146-177 | createBody: user mentions rewritten, then channel mentions, then each `\n` turned into `<br>` |
| Markdown.BodyIsOneLine | src/lib/markdown.ts:174 | the body has no `\n` |
| Markdown.BodyUnchanged | src/lib/markdown.ts:151-176 | text with no `<@`, `<#` or `\n` is the body unchanged |
| Markdown.CreateHeader | src/lib/markdown.ts:119-137 | createHeader: for a known user or a truthy `username`, the lead followed by `** ` and the local `hh:mm`; otherwise the error `There is no user information.` |
| Markdown.HeaderLead | src/lib/markdown.ts:123-134 | what createHeader writes before `** time`: `![](image24) **name` for a known user with an image, `**name` for one without, else `**username` |
| Markdown.HeaderFails | src/lib/markdown.ts:132-136 | the header fails iff the user id is unknown and `username` is falsy, with `There is no user information.` |
| Markdown.HeaderShape | src/lib/markdown.ts:123-134 | a header ends with `** ` and the five-character local time; it starts with `![](` exactly when the known user has an image, else with `**` |
| Markdown.LocalTimeShape | src/lib/markdown.ts:120 | the local time has five characters |
| Markdown.HeaderPrefersUser | src/lib/markdown.ts:123-130 | a known user is used, even when `username` is set; without an image the header is `**name** time` |
| Markdown.Row | src/lib/markdown.ts:199 | a message's two single-cell rows: `\|header\|`, a line feed, `\|body\|`, a line feed |
| Markdown.RowOf | src/lib/markdown.ts:195-199 | a message's rows, or the error of its header |
| Markdown.Join | src/lib/markdown.ts:193-202 | the pieces appended in order, or the error of the first piece that failed |
| Markdown.Rows | src/lib/markdown.ts:194-200 | one row per message, in order, row i built from message i |
| Markdown.MessagesToMarkdown | src/lib/markdown.ts:188-203 | the loop yields the rows joined in order, or the first header error |
| Markdown.JoinFailsFrom | src/lib/markdown.ts:194-200 | after the first error the remaining rows change nothing |
| Markdown.JoinAppend | src/lib/markdown.ts:194-200 | joining two row lists is joining each and concatenating, the first error winning |
| Markdown.JoinFails | src/lib/markdown.ts:194-200 | the join fails iff some row does, with the first failing row's error |
| Markdown.JoinOk | src/lib/markdown.ts:199 | with every row made, the text is the earlier rows followed by the last |
| Markdown.RowsAppend | src/lib/markdown.ts:188-203 | the table of two message lists is the concatenation of their tables |
| Markdown.NoMessages | src/lib/markdown.ts:193 | no messages give `''` |
| Markdown.TableFailsIff | src/lib/markdown.ts:188-203 | the table fails iff some message has neither a known user nor a truthy `username`, and it fails with the header's message |
| Log2Md.PathJoin | src/lib/log2md.ts:37 | `path.join(dir, name)` for a listing name: `dir/name` |
| Log2Md.JsonNamed | src/lib/log2md.ts:57 | `item.endsWith('.json')` |
| Log2Md.IsDirectory | src/lib/log2md.ts:63 | `stat(p).isDirectory()`: p exists and is a directory |
| Log2Md.Basename | src/lib/log2md.ts:163 | `path.basename`: what follows the last `/`, which holds no `/` |
| Log2Md.BasenameJoin | src/lib/log2md.ts:192 | the base name of `dir/name` is `name` |
| Log2Md.Dirname | src/lib/log2md.ts:157 | the parent directory `mkdir` needs: what precedes the last `/`, or `.` |
| Log2Md.DirnameJoin | src/lib/log2md.ts:157 | the parent of `dir/name` is `dir` |
| Log2Md.LogName | src/lib/log2md.ts:163 | `path.basename(p, '.json')` of a base name: the `.json` suffix cut off, except from the name `.json` itself |
| Log2Md.LogNameOfJson | src/lib/log2md.ts:57 | `stem.json` passes the filter and its log name is `stem` |
| Log2Md.ChannelDirs | src/lib/log2md.ts:36-42 | the loop of enumChannelDirs: every entry stat'ed, directories kept as joined paths in listing order, a missing entry failing |
| Log2Md.EnumChannelDirs | src/lib/log2md.ts:32-45 | the loop yields `ChannelDirs` of the listing, and a listing error for a path that is not a directory |
| Log2Md.ChannelDirsFailsFrom | src/lib/log2md.ts:36-42 | after a failing `stat` the remaining entries change nothing |
| Log2Md.ChannelDirsMembers | src/lib/log2md.ts:36-42 | enumeration succeeds iff every entry exists; then it keeps exactly the entries that are directories |
| Log2Md.ChannelDirsAppend | src/lib/log2md.ts:36-42 | the list keeps listing order: two listings give the concatenation of their lists |
| Log2Md.MessageJsons | src/lib/log2md.ts:56-67 | the loop of enumMessageJSONs: non-`.json` names skipped unseen, the rest stat'ed, kept unless directories, a missing entry failing |
| Log2Md.EnumMessageJsons | src/lib/log2md.ts:52-71 | the loop yields `MessageJsons` of the listing, and a listing error for a path that is not a directory |
| Log2Md.MessageJsonsFailsFrom | src/lib/log2md.ts:56-67 | after a failing `stat` the remaining entries change nothing |
| Log2Md.MessageJsonsMembers | src/lib/log2md.ts:56-67 | it succeeds iff every `.json` entry exists; then it keeps exactly the `.json` entries that are not directories |
| Log2Md.MessageJsonsAppend | src/lib/log2md.ts:56-67 | the list keeps listing order |
| Log2Md.ReadArrayFromJson | src/lib/log2md.ts:78-89 | a missing file fails with its path, a value that is not an array fails, and otherwise the array is returned |
| Log2Md.Describe | src/lib/log2md.ts:80-85 | the message of the Error a failure throws: the missing path quoted, "Data is not an array.", or a thrown message; none for the Node errors whose text is not modelled |
| Log2Md.ParseEach | src/lib/log2md.ts:102-105 | the parser applied to each element: the same length, and element i parsed from input element i |
| Log2Md.ParseEachStep | src/lib/log2md.ts:135-137 | one more iteration pushes the next element's parse |
| Log2Md.KeyedPairs | src/lib/log2md.ts:102-105 | the `(id, entity)` pairs the loops `set`, in file order, each entity under its own id |
| Log2Md.KeyedPairsStep | src/lib/log2md.ts:104 | each iteration of readChannels or readUsers is one `set` |
| Log2Md.KeyedKeys | src/lib/log2md.ts:102-105 | the map has every parsed id as a key and no other, each once |
| Log2Md.KeyedById | src/lib/log2md.ts:102-105 | an entity with no later duplicate id is the one kept |
| Log2Md.ChannelsOf | src/lib/log2md.ts:96-108 | what readChannels returns: the channels of `channels.json` set under their ids in file order, or the read error |
| Log2Md.ReadChannels | src/lib/log2md.ts:96-108 | the loop's map is the channels of `channels.json` set in file order, or the read error |
| Log2Md.UsersOf | src/lib/log2md.ts:115-125 | what readUsers returns: the users of `users.json` set under their ids in file order, or the read error |
| Log2Md.ReadUsers | src/lib/log2md.ts:115-125 | the loop's map is the users of `users.json` set in file order, or the read error |
| Log2Md.UserWithoutImageOriginal | src/lib/log2md.ts:115-125 | a user file holding one readable record whose profile has no `image_original` gives that user under its id, with that field `undefined` |
| Log2Md.MessagesOf | src/lib/log2md.ts:132-140 | what readMessages returns: the parsed messages in file order, or the read error |
| Log2Md.ReadMessages | src/lib/log2md.ts:132-140 | the loop yields the parsed messages in file order, or the read error |
| Log2Md.Document | src/lib/log2md.ts:165 | the Markdown of one log: `# logName`, an empty line, the four-column table head, then the rows |
| Log2Md.DocumentParts | src/lib/log2md.ts:165 | the document is the title line `# logName`, an empty line, the fixed table head, and then the body unchanged |
| Log2Md.DocumentStart | src/lib/log2md.ts:165 | every document starts with `# ` |
| Log2Md.LogFileWritten | src/lib/log2md.ts:163-166 | a log is written as `logName.md` directly inside the channel's directory |
| Log2Md.LogNameNoSlash | src/lib/log2md.ts:163 | a log name holds no `/` |
| Log2Md.LogBody | src/lib/log2md.ts:162-164 | the rows of one log, or its read error or header error |
| Log2Md.LogFile | src/lib/log2md.ts:163-166 | the file `dest/logName.md` with the log's document |
| Log2Md.CanWrite | src/lib/log2md.ts:167 | writeFile succeeds unless the channel's directory is a file or the target is a directory; a directory made by this run is empty |
| Log2Md.LogOutput | src/lib/log2md.ts:162-167 | a converted log is a writable `.md` file directly in the destination whose text starts with `# `; nothing is written into a destination that is a file |
| Log2Md.LogOutputs | src/lib/log2md.ts:161-168 | every file the loop writes is such a file; into a destination that is a file nothing is written, and the loop fails unless there are no logs |
| Log2Md.ConvertLog | src/lib/log2md.ts:162-167 | one iteration reads the messages, renders the rows and writes the document, or yields the first error, the write error included |
| Log2Md.ConvertLogs | src/lib/log2md.ts:161-168 | the loop converts the logs in order and stops at the first failure |
| Log2Md.LogOutputsStep | src/lib/log2md.ts:161-168 | one more log adds its file unless an earlier log failed |
| Log2Md.LogOutputsFailsFrom | src/lib/log2md.ts:161-168 | after a failing log nothing more is written |
| Log2Md.CanMakeDirectory | src/lib/log2md.ts:157 | mkdir makes no parents, so it succeeds only when the parent of the missing directory is a directory |
| Log2Md.Converted | src/lib/log2md.ts:149-169 | convertChannelMessages: a failing mkdir writes nothing; otherwise the made directory, if any, then each log's file, until a listing, read, header or write error |
| Log2Md.ConvertChannelMessages | src/lib/log2md.ts:149-169 | the directory is made only when missing, failing when its parent is not a directory; then the logs are converted |
| Log2Md.ConvertedOutputs | src/lib/log2md.ts:156-168 | a channel's output is at most its own directory, first and only when missing with a directory as parent, and then `.md` files directly inside it |
| Log2Md.MadeThenWritten | src/lib/log2md.ts:156-168 | the directory followed by files in it has that form |
| Log2Md.ConvertedIntoAFile | src/lib/log2md.ts:156-167 | a channel whose destination is a file writes nothing, and fails unless its directory has no log |
| Log2Md.ChannelRuns | src/lib/log2md.ts:191-196 | the channel directories converted in order, each into `outputDir/basename`, until one fails |
| Log2Md.Log2MdRun | src/lib/log2md.ts:177-199 | log2Md: channels, users and the listing read first, each failure stopping the run; then the channels converted |
| Log2Md.Log2Md | src/lib/log2md.ts:177-199 | the method yields `Log2MdRun`: channels, users and the listing are read first, and any failure there stops the run before anything is written |
| Log2Md.ConvertChannels | src/lib/log2md.ts:191-196 | the channel directories are converted in order until one fails |
| Log2Md.ChannelRunsStep | src/lib/log2md.ts:191-196 | one more directory adds its outputs unless an earlier one failed |
| Log2Md.ChannelRunsFailsFrom | src/lib/log2md.ts:191-196 | after a failing channel nothing more is done |
| Log2Md.ChannelDestination | src/lib/log2md.ts:192-194 | the channel directory `root/name` is converted into `outputDir/name` |
| Log2Md.ReadFailuresWriteNothing | src/lib/log2md.ts:187-189 | a failing channel file, user file or export listing writes nothing and reports a failure |
| Log2Md.MissingChannelFile | src/lib/log2md.ts:79-81 | a missing `channels.json` stops the run with `File does not exist. "<input>/channels.json"` |
| Log2Md.OutputDirIsAFile | src/lib/log2md.ts:156-157 | when the output path is a file, the first channel's mkdir fails and nothing is written |

## Left out

- I/O: `readdir`, `stat`, `readFile`, `writeFile`, `mkdir` and `fs.existsSync` are modelled over the tree as it was before the run. Reads cannot see the run's own writes: the channel directories are listed before anything is written, the run writes only `.md` files and directories, and a log listing skips names without `.json` and drops directories. Asynchrony is not modelled.
- `mkdir` fails when the parent of the missing channel directory is not a directory. `writeFile` fails when the channel's output path is a file or the target `.md` path is a directory. Other Node errors (permissions, a full disk, too long a name) are not modelled.
- Log2Md.Converted: judges "missing" from the tree before the run, so a listing that named one channel directory twice would make its output directory twice; a real directory listing names each entry once.
- `JSON.parse` is not modelled. A file holds its parsed value, or none for text that is not JSON (which fails the read).
- JSON numbers are integers only. A fractional `count`, `created` or `reply_count` cannot be represented; the parsers only copy these values or test their truthiness.
- Strings are sequences of Unicode scalar values, not UTF-16 code units, so a lone surrogate escape in an export cannot be represented.
- Messages.ParseMessage: a falsy `user_profile` that is not `undefined` (`null`, `0`, `''`, `false`) becomes no profile, where message.ts:254-256 copies that value through; every such value is falsy, so `getMetadata` treats it as no profile either way. Likewise an optional field copied verbatim reads `null` as absent.
- Parser errors: the failure `Malformed` stands in for the TypeError an ill-typed record raises in the parsers, and also for the records the shape preconditions below refuse though the source reads them. A record that is not of the required shape stops the read as a whole. The check happens before the loop, so no partial map is built.
- The shape preconditions of the message and channel parsers (`ReactionShaped`, `MessageShaped`, `ChannelShaped`, …) give each field the type its TypeScript declaration names, or a falsy value where `x || d` defaults it. So a message or channel record with a truthy field of another type, or a copied field of another type, stops the run with `Malformed` where the source copies the value and carries on.
- Users.ParseProfile, Users.ParseUser, Log2Md.UsersOf: a user record must have `tz` and the seven sized `image_*` as strings, because `.replace` on anything else throws. Its `id`, `name`, profile `real_name` and `display_name` must be strings, and profile `bot_id` a string or absent, because the model later reads them as strings (the map key, `!== ''` and `===` tests). A record where one of these is missing or of another type stops the run with `Malformed`, where the source would carry on with that value. Every other user and profile field is copied as whatever it holds (`Log2Md.UserWithoutImageOriginal`).
- Number: time stamps using an exponent, hexadecimal, `Infinity` or any form other than a decimal numeral are read as NaN (`aN:aN`). Floating-point rounding of `Number(ts) * 1000` in the last place is not modelled: the time value is truncated exactly.
- The local time of `createHeader` is a parameter `offset`, the host's offset from UTC at a given UTC second. The host time zone is not modelled.
- `decodeURI` is a total function parameter. Its URIError on a malformed escape is not modelled.
- `formatDate`: only the `'hh:mm'` format is modelled. The other tokens, and the `S` millisecond loop, leave `hh:mm` text unchanged (`Time.HhMmIsFinal`).
- `path.join` is `dir + "/" + name`, without normalising `.`, `..` or doubled slashes. `path.basename(p, '.json')` is modelled on `/`-separated paths.
- Logging (`logger.ts`), the CLI (`cli.ts`), `index.ts`'s existence check and its change to the caller's options, emoji (`emoji.ts`) and the usage examples are not part of this model.
- `markdown.test.ts` tests a later version of `markdown.ts` (a UTC time column, emoji, quoted blocks, files and attachments), so its expectations are not used as contracts here.
