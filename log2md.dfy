/**
 * The converter of src/lib/log2md.ts over a filesystem given as a value: it
 * reads `channels.json` and `users.json` of the export, lists the channel
 * directories, and for every `.json` log in each of them produces one
 * Markdown document in the output directory. What it writes is returned as a
 * list of outputs together with the error that stopped it, if any.
 */
module Log2Md {
  import opened Wrappers
  import opened Json
  import JsMap
  import opened Text
  import opened Messages
  import opened Channels
  import opened Users
  import Markdown

  // ---------------------------------------------------------------------------
  // Filesystem and paths

  /** A file holds what `JSON.parse` makes of its text (`None`: a syntax error); a directory its listing. */
  datatype Node = File(content: Option<Json>) | Directory(entries: seq<string>)

  type FileSystem = map<string, Node>

  /** `path.join(dir, name)` for a name from a directory listing. */
  function PathJoin(dir: string, name: string): string {
    dir + "/" + name
  }

  /**
   * `path.basename(p)`: what follows the last `/`. Node drops a trailing `/`
   * first and this does not (`"a/b/"` gives `""` here, `"b"` in Node); the
   * paths it is applied to are joined from listing names and never end in one.
   */
  function Basename(p: string): (b: string)
    ensures '/' !in b
  {
    if p == [] || p[|p| - 1] == '/' then []
    else Basename(p[..|p| - 1]) + [p[|p| - 1]]
  }

  /** The base name of a joined path is the name that was joined. */
  lemma {:induction false} BasenameJoin(dir: string, name: string)
    requires '/' !in name
    ensures Basename(PathJoin(dir, name)) == name
    decreases |name|
  {
    if name != [] {
      var init := name[..|name| - 1];
      assert PathJoin(dir, name)[..|PathJoin(dir, name)| - 1] == PathJoin(dir, init);
      BasenameJoin(dir, init);
      assert init + [name[|name| - 1]] == name;
    } else {
      assert PathJoin(dir, name)[|PathJoin(dir, name)| - 1] == '/';
    }
  }

  /**
   * `path.dirname(p)`: what precedes the last `/`, or `.` when there is none.
   * As with Basename, a trailing `/` is not dropped first.
   */
  function Dirname(p: string): string
    decreases |p|
  {
    if p == [] then "."
    else if p[|p| - 1] == '/' then p[..|p| - 1]
    else Dirname(p[..|p| - 1])
  }

  /** The directory of a joined path is the directory it was joined to. */
  lemma {:induction false} DirnameJoin(dir: string, name: string)
    requires '/' !in name
    ensures Dirname(PathJoin(dir, name)) == dir
    decreases |name|
  {
    if name != [] {
      var init := name[..|name| - 1];
      assert PathJoin(dir, name)[..|PathJoin(dir, name)| - 1] == PathJoin(dir, init);
      assert PathJoin(dir, name)[|PathJoin(dir, name)| - 1] == name[|name| - 1];
      DirnameJoin(dir, init);
    } else {
      assert PathJoin(dir, name)[..|PathJoin(dir, name)| - 1] == dir;
    }
  }

  /** `.json` names; enumMessageJSONs keeps only these. */
  predicate JsonNamed(name: string) {
    EndsWith(name, ".json")
  }

  /**
   * `path.basename(p, '.json')` for a base name: the suffix is cut off, except
   * from the name `.json` itself, which Node leaves whole.
   */
  function LogName(name: string): string {
    if JsonNamed(name) && |name| > 5 then name[..|name| - 5] else name
  }

  /** A log's name is its file name without `.json`, and `.json` again gives back the file name. */
  lemma LogNameOfJson(stem: string)
    requires stem != []
    ensures LogName(stem + ".json") == stem
    ensures JsonNamed(stem + ".json")
  {
    var s := stem + ".json";
    assert s[|s| - 5..] == ".json";
    assert s[..|s| - 5] == stem;
  }

  predicate IsDirectory(fs: FileSystem, p: string) {
    p in fs && fs[p].Directory?
  }

  // ---------------------------------------------------------------------------
  // Errors

  datatype Failure =
    | ReadDirFailed(path: string)     // readdir of something that is not a directory
    | StatFailed(path: string)        // stat of a listed entry that is gone
    | FileDoesNotExist(path: string)
    | ReadFailed(path: string)        // readFile of a directory
    | InvalidJson(path: string)       // JSON.parse throws
    | NotAnArray
    | Malformed(path: string)         // an element the parsers cannot read
    | Thrown(message: string)         // createHeader's error
    | MkdirFailed(path: string)       // mkdir whose parent is not a directory
    | WriteFailed(path: string)       // writeFile into a file, or onto a directory

  /** The messages the converter itself gives its errors; the others come from Node and are not modelled. */
  function Describe(f: Failure): Option<string> {
    match f
    case FileDoesNotExist(path) => Some("File does not exist. \"" + path + "\"")
    case NotAnArray => Some("Data is not an array.")
    case Thrown(message) => Some(message)
    case _ => None
  }

  // ---------------------------------------------------------------------------
  // enumChannelDirs

  /**
   * The loop of enumChannelDirs over the listing `items` of `root`: each entry
   * is stat'ed, directories are kept as joined paths, a failing stat stops it.
   */
  function ChannelDirs(fs: FileSystem, root: string, items: seq<string>): Result<seq<string>, Failure>
    decreases |items|
  {
    if items == [] then Ok([])
    else
      var init := ChannelDirs(fs, root, items[..|items| - 1]);
      var p := PathJoin(root, items[|items| - 1]);
      if init.Err? then init
      else if p !in fs then Err(StatFailed(p))
      else if fs[p].Directory? then Ok(init.value + [p])
      else init
  }

  /** enumChannelDirs */
  method EnumChannelDirs(fs: FileSystem, root: string) returns (r: Result<seq<string>, Failure>)
    ensures !IsDirectory(fs, root) ==> r == Err(ReadDirFailed(root))
    ensures IsDirectory(fs, root) ==> r == ChannelDirs(fs, root, fs[root].entries)
  {
    if !IsDirectory(fs, root) {
      return Err(ReadDirFailed(root));
    }
    var items := fs[root].entries;
    var results := [];
    var i := 0;
    while i < |items|
      invariant 0 <= i <= |items|
      invariant ChannelDirs(fs, root, items[..i]) == Ok(results)
    {
      var dir := PathJoin(root, items[i]);
      assert items[..i + 1][..i] == items[..i] && items[..i + 1][i] == items[i];
      if dir !in fs {
        ChannelDirsFailsFrom(fs, root, items, i + 1);
        return Err(StatFailed(dir));
      }
      if fs[dir].Directory? {
        results := results + [dir];
      }
      i := i + 1;
    }
    assert items[..i] == items;
    r := Ok(results);
  }

  lemma {:induction false} ChannelDirsFailsFrom(fs: FileSystem, root: string, items: seq<string>, i: nat)
    requires 0 < i <= |items| && ChannelDirs(fs, root, items[..i]).Err?
    ensures ChannelDirs(fs, root, items) == ChannelDirs(fs, root, items[..i])
    decreases |items| - i
  {
    if i < |items| {
      var t := items[..i + 1];
      assert t[..|t| - 1] == items[..i];
      ChannelDirsFailsFrom(fs, root, items, i + 1);
    } else {
      assert items[..i] == items;
    }
  }

  /**
   * The listing succeeds exactly when every entry can be stat'ed; it then
   * holds exactly the entries that are directories, as paths under `root`.
   */
  lemma {:induction false} ChannelDirsMembers(fs: FileSystem, root: string, items: seq<string>, p: string)
    ensures ChannelDirs(fs, root, items).Ok? <==> forall i | 0 <= i < |items| :: PathJoin(root, items[i]) in fs
    ensures ChannelDirs(fs, root, items).Ok? ==>
      (p in ChannelDirs(fs, root, items).value <==> exists i | 0 <= i < |items| :: p == PathJoin(root, items[i]) && fs[p].Directory?)
    decreases |items|
  {
    if items != [] {
      var n := |items| - 1;
      var init := items[..n];
      ChannelDirsMembers(fs, root, init, p);
      assert forall i | 0 <= i < n :: init[i] == items[i];
    }
  }

  /** The directories of two listings one after the other are the directories of each, in listing order. */
  lemma {:induction false} ChannelDirsAppend(fs: FileSystem, root: string, a: seq<string>, b: seq<string>)
    requires ChannelDirs(fs, root, a + b).Ok?
    ensures ChannelDirs(fs, root, a).Ok? && ChannelDirs(fs, root, b).Ok?
    ensures ChannelDirs(fs, root, a + b).value == ChannelDirs(fs, root, a).value + ChannelDirs(fs, root, b).value
    decreases |b|
  {
    if b == [] {
      assert a + b == a;
    } else {
      var b' := b[..|b| - 1];
      assert (a + b)[..|a + b| - 1] == a + b';
      assert (a + b)[|a + b| - 1] == b[|b| - 1];
      ChannelDirsAppend(fs, root, a, b');
      var x, y := ChannelDirs(fs, root, a).value, ChannelDirs(fs, root, b').value;
      assert x + y + [PathJoin(root, b[|b| - 1])] == x + (y + [PathJoin(root, b[|b| - 1])]);
    }
  }

  // ---------------------------------------------------------------------------
  // enumMessageJSONs

  /**
   * The loop of enumMessageJSONs over the listing `items` of `dir`: names not
   * ending in `.json` are skipped unseen, the rest are stat'ed and kept unless
   * they are directories; a failing stat stops it.
   */
  function MessageJsons(fs: FileSystem, dir: string, items: seq<string>): Result<seq<string>, Failure>
    decreases |items|
  {
    if items == [] then Ok([])
    else
      var init := MessageJsons(fs, dir, items[..|items| - 1]);
      var item := items[|items| - 1];
      var p := PathJoin(dir, item);
      if init.Err? || !JsonNamed(item) then init
      else if p !in fs then Err(StatFailed(p))
      else if fs[p].Directory? then init
      else Ok(init.value + [p])
  }

  /** enumMessageJSONs */
  method EnumMessageJsons(fs: FileSystem, dir: string) returns (r: Result<seq<string>, Failure>)
    ensures !IsDirectory(fs, dir) ==> r == Err(ReadDirFailed(dir))
    ensures IsDirectory(fs, dir) ==> r == MessageJsons(fs, dir, fs[dir].entries)
  {
    if !IsDirectory(fs, dir) {
      return Err(ReadDirFailed(dir));
    }
    var items := fs[dir].entries;
    var results := [];
    var i := 0;
    while i < |items|
      invariant 0 <= i <= |items|
      invariant MessageJsons(fs, dir, items[..i]) == Ok(results)
    {
      assert items[..i + 1][..i] == items[..i] && items[..i + 1][i] == items[i];
      if !JsonNamed(items[i]) {
        i := i + 1;
        continue;
      }
      var filePath := PathJoin(dir, items[i]);
      if filePath !in fs {
        MessageJsonsFailsFrom(fs, dir, items, i + 1);
        return Err(StatFailed(filePath));
      }
      if fs[filePath].Directory? {
        i := i + 1;
        continue;
      }
      results := results + [filePath];
      i := i + 1;
    }
    assert items[..i] == items;
    r := Ok(results);
  }

  lemma {:induction false} MessageJsonsFailsFrom(fs: FileSystem, dir: string, items: seq<string>, i: nat)
    requires 0 < i <= |items| && MessageJsons(fs, dir, items[..i]).Err?
    ensures MessageJsons(fs, dir, items) == MessageJsons(fs, dir, items[..i])
    decreases |items| - i
  {
    if i < |items| {
      var t := items[..i + 1];
      assert t[..|t| - 1] == items[..i];
      MessageJsonsFailsFrom(fs, dir, items, i + 1);
    } else {
      assert items[..i] == items;
    }
  }

  /**
   * Only `.json` names are stat'ed, so only they can make the listing fail;
   * it then holds exactly the `.json` entries that are not directories.
   */
  lemma {:induction false} MessageJsonsMembers(fs: FileSystem, dir: string, items: seq<string>, p: string)
    ensures MessageJsons(fs, dir, items).Ok? <==>
      forall i | 0 <= i < |items| :: JsonNamed(items[i]) ==> PathJoin(dir, items[i]) in fs
    ensures MessageJsons(fs, dir, items).Ok? ==>
      (p in MessageJsons(fs, dir, items).value <==>
        exists i | 0 <= i < |items| :: p == PathJoin(dir, items[i]) && JsonNamed(items[i]) && fs[p].File?)
    decreases |items|
  {
    if items != [] {
      var n := |items| - 1;
      var init := items[..n];
      MessageJsonsMembers(fs, dir, init, p);
      assert forall i | 0 <= i < n :: init[i] == items[i];
    }
  }

  /** Logs of two listings one after the other are the logs of each, in listing order. */
  lemma {:induction false} MessageJsonsAppend(fs: FileSystem, dir: string, a: seq<string>, b: seq<string>)
    requires MessageJsons(fs, dir, a + b).Ok?
    ensures MessageJsons(fs, dir, a).Ok? && MessageJsons(fs, dir, b).Ok?
    ensures MessageJsons(fs, dir, a + b).value == MessageJsons(fs, dir, a).value + MessageJsons(fs, dir, b).value
    decreases |b|
  {
    if b == [] {
      assert a + b == a;
    } else {
      var b' := b[..|b| - 1];
      assert (a + b)[..|a + b| - 1] == a + b';
      assert (a + b)[|a + b| - 1] == b[|b| - 1];
      MessageJsonsAppend(fs, dir, a, b');
      var x, y := MessageJsons(fs, dir, a).value, MessageJsons(fs, dir, b').value;
      assert x + y + [PathJoin(dir, b[|b| - 1])] == x + (y + [PathJoin(dir, b[|b| - 1])]);
    }
  }

  // ---------------------------------------------------------------------------
  // readArrayFromJSON

  /** readArrayFromJSON: the file must exist, be readable, parse, and hold an array. */
  function ReadArrayFromJson(fs: FileSystem, path: string): (r: Result<seq<Json>, Failure>)
    ensures path !in fs ==> r == Err(FileDoesNotExist(path))
    ensures r.Ok? <==> path in fs && fs[path].File? && fs[path].content.Some? && fs[path].content.value.JArray?
    ensures r.Ok? ==> fs[path].content.value == JArray(r.value)
    ensures path in fs && fs[path].File? && fs[path].content.Some? && !fs[path].content.value.JArray? ==> r == Err(NotAnArray)
  {
    if path !in fs then Err(FileDoesNotExist(path))
    else match fs[path]
      case Directory(_) => Err(ReadFailed(path))
      case File(content) =>
        if content.None? then Err(InvalidJson(path))
        else if !content.value.JArray? then Err(NotAnArray)
        else Ok(content.value.items)
  }

  // ---------------------------------------------------------------------------
  // readChannels and readUsers

  /** `parse` applied to each element, in order. */
  function ParseEach<T>(values: seq<Json>, parse: Json --> T): (xs: seq<T>)
    requires forall i | 0 <= i < |values| :: parse.requires(values[i])
    ensures |xs| == |values|
    ensures forall i | 0 <= i < |values| :: xs[i] == parse(values[i])
    decreases |values|
  {
    if values == [] then []
    else
      var init := values[..|values| - 1];
      assert forall i | 0 <= i < |init| :: init[i] == values[i];
      ParseEach(init, parse) + [parse(values[|values| - 1])]
  }

  /** One more element parsed. */
  lemma ParseEachStep<T>(values: seq<Json>, parse: Json --> T, i: nat)
    requires forall k | 0 <= k < |values| :: parse.requires(values[k])
    requires i < |values|
    ensures ParseEach(values[..i + 1], parse) == ParseEach(values[..i], parse) + [parse(values[i])]
  {
    assert values[..i + 1][..i] == values[..i];
  }

  /** The `(key(x), x)` pairs a loop setting each `x` under its key sets, in order. */
  function KeyedPairs<T>(xs: seq<T>, key: T -> string): (ps: seq<(string, T)>)
    ensures |ps| == |xs| && forall i | 0 <= i < |xs| :: ps[i] == (key(xs[i]), xs[i])
  {
    if xs == [] then [] else KeyedPairs(xs[..|xs| - 1], key) + [(key(xs[|xs| - 1]), xs[|xs| - 1])]
  }

  /** One more `set`. */
  lemma KeyedPairsStep<T>(xs: seq<T>, key: T -> string, i: nat)
    requires i < |xs|
    ensures JsMap.FromPairs(KeyedPairs(xs[..i + 1], key)) == JsMap.Set(JsMap.FromPairs(KeyedPairs(xs[..i], key)), key(xs[i]), xs[i])
  {
    assert xs[..i + 1][..i] == xs[..i];
  }

  /** The map has exactly the keys of the elements, each once. */
  lemma KeyedKeys<T>(xs: seq<T>, key: T -> string, id: string)
    ensures JsMap.HasKey(JsMap.FromPairs(KeyedPairs(xs, key)), id) <==> exists k | 0 <= k < |xs| :: key(xs[k]) == id
    ensures JsMap.UniqueKeys(JsMap.FromPairs(KeyedPairs(xs, key)))
  {
    var ps := KeyedPairs(xs, key);
    JsMap.FromPairsHasKey(ps, id);
    JsMap.FromPairsUnique(ps);
  }

  /** Of two elements with the same key the later one wins: an element with no later duplicate is the one `get` finds. */
  lemma KeyedById<T>(xs: seq<T>, key: T -> string, i: nat)
    requires i < |xs|
    requires forall j | i < j < |xs| :: key(xs[j]) != key(xs[i])
    ensures JsMap.Get(JsMap.FromPairs(KeyedPairs(xs, key)), key(xs[i])) == Some(xs[i])
  {
    JsMap.LaterPairWins(KeyedPairs(xs, key), i);
  }

  function ChannelId(c: Channel): string { c.id }

  function UserId(u: User): string { u.id }

  /** Every element is a channel record the parser can read. */
  predicate ChannelsShaped(values: seq<Json>) {
    forall i | 0 <= i < |values| :: ChannelShaped(values[i])
  }

  /** What readChannels yields for the channel file at `path`. */
  function ChannelsOf(fs: FileSystem, path: string): Result<Markdown.ChannelMap, Failure> {
    var values := ReadArrayFromJson(fs, path);
    if values.Err? then Err(values.error)
    else if ChannelsShaped(values.value) then Ok(JsMap.FromPairs(KeyedPairs(ParseEach(values.value, ParseChannel), ChannelId)))
    else Err(Malformed(path))
  }

  /** readChannels: each parsed channel is `set` under its id, in file order. */
  method ReadChannels(fs: FileSystem, dir: string) returns (r: Result<Markdown.ChannelMap, Failure>)
    ensures r == ChannelsOf(fs, PathJoin(dir, "channels.json"))
  {
    var path := PathJoin(dir, "channels.json");
    var values := ReadArrayFromJson(fs, path);
    if values.Err? {
      return Err(values.error);
    }
    var items := values.value;
    if !ChannelsShaped(items) {
      return Err(Malformed(path));
    }
    ghost var parsed := ParseEach(items, ParseChannel);
    var channels := [];
    var i := 0;
    while i < |items|
      invariant 0 <= i <= |items|
      invariant channels == JsMap.FromPairs(KeyedPairs(parsed[..i], ChannelId))
    {
      var channel := ParseChannel(items[i]);
      KeyedPairsStep(parsed, ChannelId, i);
      channels := JsMap.Set(channels, channel.id, channel);
      i := i + 1;
    }
    assert parsed[..i] == parsed;
    r := Ok(channels);
  }

  /** Every element is a user record the parser can read. */
  predicate UsersShaped(values: seq<Json>) {
    forall i | 0 <= i < |values| :: UserShaped(values[i])
  }

  /** What readUsers yields for the user file at `path`. */
  function UsersOf(fs: FileSystem, path: string): Result<Markdown.UserMap, Failure> {
    var values := ReadArrayFromJson(fs, path);
    if values.Err? then Err(values.error)
    else if UsersShaped(values.value) then Ok(JsMap.FromPairs(KeyedPairs(ParseEach(values.value, ParseUser), UserId)))
    else Err(Malformed(path))
  }

  /** readUsers: each parsed user is `set` under its id, in file order. */
  method ReadUsers(fs: FileSystem, dir: string) returns (r: Result<Markdown.UserMap, Failure>)
    ensures r == UsersOf(fs, PathJoin(dir, "users.json"))
  {
    var path := PathJoin(dir, "users.json");
    var values := ReadArrayFromJson(fs, path);
    if values.Err? {
      return Err(values.error);
    }
    var items := values.value;
    if !UsersShaped(items) {
      return Err(Malformed(path));
    }
    ghost var parsed := ParseEach(items, ParseUser);
    var users := [];
    var i := 0;
    while i < |items|
      invariant 0 <= i <= |items|
      invariant users == JsMap.FromPairs(KeyedPairs(parsed[..i], UserId))
    {
      var user := ParseUser(items[i]);
      KeyedPairsStep(parsed, UserId, i);
      users := JsMap.Set(users, user.id, user);
      i := i + 1;
    }
    assert parsed[..i] == parsed;
    r := Ok(users);
  }

  /**
   * A user record is read whatever its copied-only fields hold: a profile
   * without `image_original` still gives the user, with `undefined` there.
   */
  lemma UserWithoutImageOriginal(fs: FileSystem, path: string, u: Json)
    requires path in fs && fs[path] == Node.File(Some(JArray([u])))
    requires UserShaped(u) && Get(Get(u, "profile"), "image_original") == JUndefined
    ensures UsersOf(fs, path) == Ok([(ParseUser(u).id, ParseUser(u))])
    ensures ParseUser(u).profile.imageOriginal == JUndefined
  {
    var user := ParseUser(u);
    assert ReadArrayFromJson(fs, path) == Ok([u]);
    assert UsersShaped([u]);
    var parsed := ParseEach([u], ParseUser);
    assert parsed == [user];
    var ps := KeyedPairs(parsed, UserId);
    assert ps == [(user.id, user)];
    assert JsMap.FromPairs([(user.id, user)]) == JsMap.Set([], user.id, user);
  }

  // ---------------------------------------------------------------------------
  // readMessages

  /** Every element is a message record the parser can read. */
  predicate MessagesShaped(values: seq<Json>) {
    forall i | 0 <= i < |values| :: MessageShaped(values[i])
  }

  /** What readMessages yields for the log at `path`. */
  function MessagesOf(fs: FileSystem, path: string): Result<seq<Message>, Failure> {
    var values := ReadArrayFromJson(fs, path);
    if values.Err? then Err(values.error)
    else if MessagesShaped(values.value) then Ok(ParseEach(values.value, ParseMessage))
    else Err(Malformed(path))
  }

  /** readMessages: the parsed messages are pushed in file order. */
  method ReadMessages(fs: FileSystem, path: string) returns (r: Result<seq<Message>, Failure>)
    ensures r == MessagesOf(fs, path)
  {
    var values := ReadArrayFromJson(fs, path);
    if values.Err? {
      return Err(values.error);
    }
    var items := values.value;
    if !MessagesShaped(items) {
      return Err(Malformed(path));
    }
    var messages := [];
    var i := 0;
    while i < |items|
      invariant 0 <= i <= |items|
      invariant messages == ParseEach(items[..i], ParseMessage)
    {
      ParseEachStep(items, ParseMessage, i);
      messages := messages + [ParseMessage(items[i])];
      i := i + 1;
    }
    assert items[..i] == items;
    r := Ok(messages);
  }

  // ---------------------------------------------------------------------------
  // convertChannelMessages

  /** What the converter does to the disk. */
  datatype Output = MadeDirectory(path: string) | Wrote(path: string, text: string)

  /** The outputs of a run, in order, and the error that ended it early. */
  datatype Run = Run(outputs: seq<Output>, failure: Option<Failure>)

  const TableHead: string := "|Time|Icon|Name|Message|\n|---|---|---|---|\n"

  /** The Markdown document of one log: a title line, an empty line, the table head and the rows. */
  function Document(logName: string, body: string): string {
    "# " + logName + "\n\n" + TableHead + body
  }

  /** The title line carries the log's name, and the rows follow the fixed table head unchanged. */
  lemma DocumentParts(logName: string, body: string)
    requires '\n' !in logName
    ensures var d := Document(logName, body);
      var n := |logName| + 2;
      && d[..n] == "# " + logName && '\n' !in d[..n] && d[n..n + 2] == "\n\n"
      && d[n + 2..n + 2 + |TableHead|] == TableHead
      && d[n + 2 + |TableHead|..] == body
  {
    var d := Document(logName, body);
    var title := "# " + logName;
    var rest := TableHead + body;
    Assoc(title + "\n\n", TableHead, body);
    Assoc(title, "\n\n", rest);
    assert d == title + ("\n\n" + rest);
    Split(title, "\n\n" + rest);
    Split("\n\n", rest);
    Split(TableHead, body);
    assert '\n' !in title;
  }

  /** A document starts with its title marker. */
  lemma DocumentStart(logName: string, body: string)
    ensures |Document(logName, body)| >= 2 && Document(logName, body)[..2] == "# "
  {
    Assoc("# " + logName + "\n\n", TableHead, body);
    Assoc("# " + logName, "\n\n", TableHead + body);
    Assoc("# ", logName, "\n\n" + (TableHead + body));
    Split("# ", logName + ("\n\n" + (TableHead + body)));
  }

  /** The rows of the log at `file`, or why they could not be made. */
  function LogBody(fs: FileSystem, file: string, channels: Markdown.ChannelMap, users: Markdown.UserMap,
                   offset: int -> int, decode: string -> string): Result<string, Failure>
  {
    var messages := MessagesOf(fs, file);
    if messages.Err? then Err(messages.error)
    else
      var body := Markdown.Join(Markdown.Rows(messages.value, channels, users, offset, decode));
      if body.Err? then Err(Thrown(body.error)) else Ok(body.value)
  }

  /** The file in `dest` that the log at `file` becomes, with the document around `body`. */
  function LogFile(dest: string, file: string, body: string): Output {
    var logName := LogName(Basename(file));
    Wrote(PathJoin(dest, logName + ".md"), Document(logName, body))
  }

  /**
   * Whether writeFile can write `path` in the channel's output directory
   * `dest`: not when `dest` is a file (ENOTDIR) or `path` is a directory
   * (EISDIR). A `dest` missing from the tree before the run has just been
   * made, and is empty.
   */
  predicate CanWrite(fs: FileSystem, dest: string, path: string) {
    dest !in fs || (fs[dest].Directory? && !IsDirectory(fs, path))
  }

  /** The file the log at `file` is written to, and what is written, or why it could not be. */
  function LogOutput(fs: FileSystem, file: string, dest: string, channels: Markdown.ChannelMap, users: Markdown.UserMap,
                     offset: int -> int, decode: string -> string): (r: Result<Output, Failure>)
    ensures r.Ok? ==> WrittenIn(r.value, dest) && CanWrite(fs, dest, r.value.path)
    ensures dest in fs && fs[dest].File? ==> r.Err?
  {
    var body := LogBody(fs, file, channels, users, offset, decode);
    if body.Err? then Err(body.error)
    else
      var out := LogFile(dest, file, body.value);
      if !CanWrite(fs, dest, out.path) then Err(WriteFailed(out.path))
      else
        LogFileWritten(dest, file, body.value);
        Ok(out)
  }

  /** The log files converted one after the other until one fails. */
  function LogOutputs(fs: FileSystem, files: seq<string>, dest: string, channels: Markdown.ChannelMap, users: Markdown.UserMap,
                      offset: int -> int, decode: string -> string): (r: Run)
    ensures forall k | 0 <= k < |r.outputs| :: WrittenIn(r.outputs[k], dest)
    ensures dest in fs && fs[dest].File? ==> r.outputs == [] && (r.failure.None? <==> files == [])
    decreases |files|
  {
    if files == [] then Run([], None)
    else
      var init := LogOutputs(fs, files[..|files| - 1], dest, channels, users, offset, decode);
      var out := LogOutput(fs, files[|files| - 1], dest, channels, users, offset, decode);
      if init.failure.Some? then init
      else if out.Err? then Run(init.outputs, Some(out.error))
      else
        var outs := init.outputs + [out.value];
        assert forall k | 0 <= k < |outs| :: outs[k] == if k < |init.outputs| then init.outputs[k] else out.value;
        Run(outs, None)
  }

  /** Whether mkdir can make the missing directory `dest`: it makes no parents, so its parent must be a directory. */
  predicate CanMakeDirectory(fs: FileSystem, dest: string) {
    IsDirectory(fs, Dirname(dest))
  }

  /** What convertChannelMessages does for the channel directory `src`. */
  function Converted(fs: FileSystem, src: string, dest: string, channels: Markdown.ChannelMap, users: Markdown.UserMap,
                     offset: int -> int, decode: string -> string): Run
  {
    if dest !in fs && !CanMakeDirectory(fs, dest) then Run([], Some(MkdirFailed(dest)))
    else
      var made := if dest in fs then [] else [MadeDirectory(dest)];
      var files := if IsDirectory(fs, src) then MessageJsons(fs, src, fs[src].entries) else Err(ReadDirFailed(src));
      if files.Err? then Run(made, Some(files.error))
      else
        var logs := LogOutputs(fs, files.value, dest, channels, users, offset, decode);
        Run(made + logs.outputs, logs.failure)
  }

  /**
   * When the channel's output path is a file, nothing at all is written:
   * mkdir is skipped because the path exists, and every log either fails to
   * read or fails at writeFile; the run fails unless there is no log.
   */
  lemma ConvertedIntoAFile(fs: FileSystem, src: string, dest: string, channels: Markdown.ChannelMap, users: Markdown.UserMap,
                           offset: int -> int, decode: string -> string)
    requires dest in fs && fs[dest].File?
    ensures var run := Converted(fs, src, dest, channels, users, offset, decode);
      run.outputs == [] && (run.failure.None? <==> IsDirectory(fs, src) && MessageJsons(fs, src, fs[src].entries) == Ok([]))
  {
  }

  /** convertChannelMessages */
  method ConvertChannelMessages(fs: FileSystem, src: string, dest: string, channels: Markdown.ChannelMap, users: Markdown.UserMap,
                                offset: int -> int, decode: string -> string) returns (run: Run)
    ensures run == Converted(fs, src, dest, channels, users, offset, decode)
  {
    var made := [];
    if dest !in fs {
      if !CanMakeDirectory(fs, dest) {
        return Run([], Some(MkdirFailed(dest)));
      }
      made := [MadeDirectory(dest)];
    }
    var files := EnumMessageJsons(fs, src);
    if files.Err? {
      return Run(made, Some(files.error));
    }
    var logs := ConvertLogs(fs, files.value, dest, channels, users, offset, decode);
    run := Run(made + logs.outputs, logs.failure);
  }

  /** The loop of convertChannelMessages: convert the log files in order, stopping at the first failure. */
  method ConvertLogs(fs: FileSystem, filePaths: seq<string>, dest: string, channels: Markdown.ChannelMap, users: Markdown.UserMap,
                     offset: int -> int, decode: string -> string) returns (run: Run)
    ensures run == LogOutputs(fs, filePaths, dest, channels, users, offset, decode)
  {
    var logs := [];
    var i := 0;
    while i < |filePaths|
      invariant 0 <= i <= |filePaths|
      invariant LogOutputs(fs, filePaths[..i], dest, channels, users, offset, decode) == Run(logs, None)
    {
      LogOutputsStep(fs, filePaths, i, dest, channels, users, offset, decode);
      var out := ConvertLog(fs, filePaths[i], dest, channels, users, offset, decode);
      if out.Err? {
        LogOutputsFailsFrom(fs, filePaths, i + 1, dest, channels, users, offset, decode);
        return Run(logs, Some(out.error));
      }
      logs := logs + [out.value];
      i := i + 1;
    }
    assert filePaths[..i] == filePaths;
    run := Run(logs, None);
  }

  /** The body of convertChannelMessages' loop: read one log file and render its document. */
  method ConvertLog(fs: FileSystem, filePath: string, dest: string, channels: Markdown.ChannelMap, users: Markdown.UserMap,
                    offset: int -> int, decode: string -> string) returns (out: Result<Output, Failure>)
    ensures out == LogOutput(fs, filePath, dest, channels, users, offset, decode)
  {
    var messages := ReadMessages(fs, filePath);
    if messages.Err? {
      return Err(messages.error);
    }
    var logName := LogName(Basename(filePath));
    var body := Markdown.MessagesToMarkdown(messages.value, channels, users, offset, decode);
    if body.Err? {
      return Err(Thrown(body.error));
    }
    var markdown := Document(logName, body.value);
    var destFilePath := PathJoin(dest, logName + ".md");
    if !CanWrite(fs, dest, destFilePath) {
      return Err(WriteFailed(destFilePath));
    }
    out := Ok(Wrote(destFilePath, markdown));
  }

  /** One more log file: converted when none before it failed. */
  lemma LogOutputsStep(fs: FileSystem, files: seq<string>, i: nat, dest: string, channels: Markdown.ChannelMap,
                       users: Markdown.UserMap, offset: int -> int, decode: string -> string)
    requires i < |files|
    ensures var init := LogOutputs(fs, files[..i], dest, channels, users, offset, decode);
      var out := LogOutput(fs, files[i], dest, channels, users, offset, decode);
      LogOutputs(fs, files[..i + 1], dest, channels, users, offset, decode)
        == if init.failure.Some? then init
           else if out.Err? then Run(init.outputs, Some(out.error))
           else Run(init.outputs + [out.value], None)
  {
    assert files[..i + 1][..i] == files[..i] && files[..i + 1][i] == files[i];
  }

  lemma {:induction false} LogOutputsFailsFrom(fs: FileSystem, files: seq<string>, i: nat, dest: string, channels: Markdown.ChannelMap,
                                               users: Markdown.UserMap, offset: int -> int, decode: string -> string)
    requires 0 < i <= |files| && LogOutputs(fs, files[..i], dest, channels, users, offset, decode).failure.Some?
    ensures LogOutputs(fs, files, dest, channels, users, offset, decode) == LogOutputs(fs, files[..i], dest, channels, users, offset, decode)
    decreases |files| - i
  {
    if i < |files| {
      var t := files[..i + 1];
      assert t[..|t| - 1] == files[..i];
      LogOutputsFailsFrom(fs, files, i + 1, dest, channels, users, offset, decode);
    } else {
      assert files[..i] == files;
    }
  }

  /**
   * A channel's conversion makes at most its own output directory, first and
   * only when it is missing and its parent is a directory, and every other
   * output is a `.md` file directly in that directory whose text starts with
   * the title line `# `.
   */
  lemma ConvertedOutputs(fs: FileSystem, src: string, dest: string, channels: Markdown.ChannelMap, users: Markdown.UserMap,
                         offset: int -> int, decode: string -> string)
    ensures var outs := Converted(fs, src, dest, channels, users, offset, decode).outputs;
      forall k | 0 <= k < |outs| ::
        if outs[k].MadeDirectory? then k == 0 && outs[k].path == dest && dest !in fs && CanMakeDirectory(fs, dest)
        else WrittenIn(outs[k], dest)
  {
    if dest !in fs && !CanMakeDirectory(fs, dest) {
      return;
    }
    var made := if dest in fs then [] else [MadeDirectory(dest)];
    var files := if IsDirectory(fs, src) then MessageJsons(fs, src, fs[src].entries) else Err(ReadDirFailed(src));
    if files.Ok? {
      var logs := LogOutputs(fs, files.value, dest, channels, users, offset, decode).outputs;
      MadeThenWritten(fs, dest, made, logs);
    } else {
      MadeThenWritten(fs, dest, made, []);
      assert made + [] == made;
    }
  }

  lemma MadeThenWritten(fs: FileSystem, dest: string, made: seq<Output>, logs: seq<Output>)
    requires dest !in fs ==> CanMakeDirectory(fs, dest)
    requires made == if dest in fs then [] else [MadeDirectory(dest)]
    requires forall k | 0 <= k < |logs| :: WrittenIn(logs[k], dest)
    ensures var outs := made + logs;
      forall k | 0 <= k < |outs| ::
        if outs[k].MadeDirectory? then k == 0 && outs[k].path == dest && dest !in fs && CanMakeDirectory(fs, dest)
        else WrittenIn(outs[k], dest)
  {
    var outs := made + logs;
    forall k | 0 <= k < |outs|
      ensures if outs[k].MadeDirectory? then k == 0 && outs[k].path == dest && dest !in fs && CanMakeDirectory(fs, dest)
              else WrittenIn(outs[k], dest)
    {
      if k >= |made| {
        assert outs[k] == logs[k - |made|];
      }
    }
  }

  /** A `.md` file directly in `dest` whose document starts with `# `. */
  predicate WrittenIn(o: Output, dest: string) {
    && o.Wrote?
    && |o.path| > |dest| + 1 && o.path[..|dest| + 1] == dest + "/" && '/' !in o.path[|dest| + 1..]
    && EndsWith(o.path, ".md")
    && |o.text| >= 2 && o.text[..2] == "# "
  }

  /** A log's file lies directly in the channel's output directory, ends in `.md`, and its text starts with `# `. */
  lemma LogFileWritten(dest: string, file: string, body: string)
    ensures WrittenIn(LogFile(dest, file, body), dest)
  {
    var o := LogFile(dest, file, body);
    var logName := LogName(Basename(file));
    LogNameNoSlash(Basename(file));
    var name := logName + ".md";
    assert o.path == dest + "/" + name;
    Split(dest + "/", name);
    assert '/' !in name;
    assert o.path[|o.path| - 3..] == ".md";
    DocumentStart(logName, body);
  }

  lemma LogNameNoSlash(name: string)
    requires '/' !in name
    ensures '/' !in LogName(name)
  {
  }

  // ---------------------------------------------------------------------------
  // log2Md

  /** The channel directories converted one after the other until one fails; each goes to `outputDir/<basename>`. */
  function ChannelRuns(fs: FileSystem, dirs: seq<string>, outputDir: string, channels: Markdown.ChannelMap, users: Markdown.UserMap,
                       offset: int -> int, decode: string -> string): Run
    decreases |dirs|
  {
    if dirs == [] then Run([], None)
    else
      var init := ChannelRuns(fs, dirs[..|dirs| - 1], outputDir, channels, users, offset, decode);
      var src := dirs[|dirs| - 1];
      var run := Converted(fs, src, PathJoin(outputDir, Basename(src)), channels, users, offset, decode);
      if init.failure.Some? then init
      else Run(init.outputs + run.outputs, run.failure)
  }

  /** What log2Md does for the export in `inputDir`. */
  function Log2MdRun(fs: FileSystem, inputDir: string, outputDir: string, offset: int -> int, decode: string -> string): Run {
    var channels := ChannelsOf(fs, PathJoin(inputDir, "channels.json"));
    var users := UsersOf(fs, PathJoin(inputDir, "users.json"));
    var dirs := if IsDirectory(fs, inputDir) then ChannelDirs(fs, inputDir, fs[inputDir].entries) else Err(ReadDirFailed(inputDir));
    if channels.Err? then Run([], Some(channels.error))
    else if users.Err? then Run([], Some(users.error))
    else if dirs.Err? then Run([], Some(dirs.error))
    else ChannelRuns(fs, dirs.value, outputDir, channels.value, users.value, offset, decode)
  }

  /** log2Md: read channels and users, list the channel directories, convert each. */
  method Log2Md(fs: FileSystem, inputDir: string, outputDir: string, offset: int -> int, decode: string -> string) returns (run: Run)
    ensures run == Log2MdRun(fs, inputDir, outputDir, offset, decode)
  {
    var channels := ReadChannels(fs, inputDir);
    if channels.Err? {
      return Run([], Some(channels.error));
    }
    var users := ReadUsers(fs, inputDir);
    if users.Err? {
      return Run([], Some(users.error));
    }
    var channelDirs := EnumChannelDirs(fs, inputDir);
    if channelDirs.Err? {
      return Run([], Some(channelDirs.error));
    }
    run := ConvertChannels(fs, channelDirs.value, outputDir, channels.value, users.value, offset, decode);
  }

  /** The loop of log2Md: convert the channel directories in order, stopping at the first failure. */
  method ConvertChannels(fs: FileSystem, dirs: seq<string>, outputDir: string, channels: Markdown.ChannelMap, users: Markdown.UserMap,
                         offset: int -> int, decode: string -> string) returns (run: Run)
    ensures run == ChannelRuns(fs, dirs, outputDir, channels, users, offset, decode)
  {
    var outputs := [];
    var i := 0;
    while i < |dirs|
      invariant 0 <= i <= |dirs|
      invariant ChannelRuns(fs, dirs[..i], outputDir, channels, users, offset, decode) == Run(outputs, None)
    {
      var src := dirs[i];
      ChannelRunsStep(fs, dirs, i, outputDir, channels, users, offset, decode);
      var dest := PathJoin(outputDir, Basename(src));
      var converted := ConvertChannelMessages(fs, src, dest, channels, users, offset, decode);
      outputs := outputs + converted.outputs;
      if converted.failure.Some? {
        ChannelRunsFailsFrom(fs, dirs, i + 1, outputDir, channels, users, offset, decode);
        return Run(outputs, converted.failure);
      }
      i := i + 1;
    }
    assert dirs[..i] == dirs;
    run := Run(outputs, None);
  }

  /** One more channel directory: converted when none before it failed. */
  lemma ChannelRunsStep(fs: FileSystem, dirs: seq<string>, i: nat, outputDir: string, channels: Markdown.ChannelMap,
                        users: Markdown.UserMap, offset: int -> int, decode: string -> string)
    requires i < |dirs|
    ensures var init := ChannelRuns(fs, dirs[..i], outputDir, channels, users, offset, decode);
      var run := Converted(fs, dirs[i], PathJoin(outputDir, Basename(dirs[i])), channels, users, offset, decode);
      ChannelRuns(fs, dirs[..i + 1], outputDir, channels, users, offset, decode)
        == if init.failure.Some? then init else Run(init.outputs + run.outputs, run.failure)
  {
    assert dirs[..i + 1][..i] == dirs[..i] && dirs[..i + 1][i] == dirs[i];
  }

  lemma {:induction false} ChannelRunsFailsFrom(fs: FileSystem, dirs: seq<string>, i: nat, outputDir: string, channels: Markdown.ChannelMap,
                                                users: Markdown.UserMap, offset: int -> int, decode: string -> string)
    requires 0 < i <= |dirs| && ChannelRuns(fs, dirs[..i], outputDir, channels, users, offset, decode).failure.Some?
    ensures ChannelRuns(fs, dirs, outputDir, channels, users, offset, decode) == ChannelRuns(fs, dirs[..i], outputDir, channels, users, offset, decode)
    decreases |dirs| - i
  {
    if i < |dirs| {
      var t := dirs[..i + 1];
      assert t[..|t| - 1] == dirs[..i];
      ChannelRunsFailsFrom(fs, dirs, i + 1, outputDir, channels, users, offset, decode);
    } else {
      assert dirs[..i] == dirs;
    }
  }

  /** The channel directory `root/name` is converted into `outputDir/name`. */
  lemma ChannelDestination(root: string, name: string, outputDir: string)
    requires '/' !in name
    ensures PathJoin(outputDir, Basename(PathJoin(root, name))) == PathJoin(outputDir, name)
  {
    BasenameJoin(root, name);
  }

  /** Nothing is written when the channel file, the user file or the listing of the export fails. */
  lemma ReadFailuresWriteNothing(fs: FileSystem, inputDir: string, outputDir: string, offset: int -> int, decode: string -> string)
    requires || ChannelsOf(fs, PathJoin(inputDir, "channels.json")).Err?
             || UsersOf(fs, PathJoin(inputDir, "users.json")).Err?
             || !IsDirectory(fs, inputDir)
    ensures Log2MdRun(fs, inputDir, outputDir, offset, decode).outputs == []
    ensures Log2MdRun(fs, inputDir, outputDir, offset, decode).failure.Some?
  {
  }

  /** A missing `channels.json` stops the conversion with the converter's own message. */
  lemma MissingChannelFile(fs: FileSystem, inputDir: string, outputDir: string, offset: int -> int, decode: string -> string)
    requires PathJoin(inputDir, "channels.json") !in fs
    ensures Log2MdRun(fs, inputDir, outputDir, offset, decode) == Run([], Some(FileDoesNotExist(PathJoin(inputDir, "channels.json"))))
    ensures Describe(FileDoesNotExist(PathJoin(inputDir, "channels.json"))) == Some("File does not exist. \"" + inputDir + "/channels.json\"")
  {
    var p := PathJoin(inputDir, "channels.json");
    assert "File does not exist. \"" + p + "\"" == "File does not exist. \"" + inputDir + "/channels.json\"";
  }

  /**
   * An output path that is a file holds nothing, so the first channel's
   * mkdir fails, its parent not being a directory, and nothing is written.
   */
  lemma OutputDirIsAFile(fs: FileSystem, inputDir: string, outputDir: string, offset: int -> int, decode: string -> string)
    requires outputDir in fs && fs[outputDir].File?
    requires forall p | p in fs :: !(|p| > |outputDir| && p[..|outputDir| + 1] == outputDir + "/")
    requires ChannelsOf(fs, PathJoin(inputDir, "channels.json")).Ok? && UsersOf(fs, PathJoin(inputDir, "users.json")).Ok?
    requires IsDirectory(fs, inputDir) && ChannelDirs(fs, inputDir, fs[inputDir].entries).Ok?
    requires ChannelDirs(fs, inputDir, fs[inputDir].entries).value != []
    ensures var first := ChannelDirs(fs, inputDir, fs[inputDir].entries).value[0];
      Log2MdRun(fs, inputDir, outputDir, offset, decode) == Run([], Some(MkdirFailed(PathJoin(outputDir, Basename(first)))))
  {
    var channels := ChannelsOf(fs, PathJoin(inputDir, "channels.json")).value;
    var users := UsersOf(fs, PathJoin(inputDir, "users.json")).value;
    var dirs := ChannelDirs(fs, inputDir, fs[inputDir].entries).value;
    var name := Basename(dirs[0]);
    var dest := PathJoin(outputDir, name);
    Split(outputDir + "/", name);
    assert dest !in fs;
    DirnameJoin(outputDir, name);
    assert Converted(fs, dirs[0], dest, channels, users, offset, decode) == Run([], Some(MkdirFailed(dest)));
    assert dirs[..1][..0] == [] && dirs[..1][0] == dirs[0];
    ChannelRunsFailsFrom(fs, dirs, 1, outputDir, channels, users, offset, decode);
  }
}
