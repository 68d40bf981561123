/**
 * Where Core/Content/Configs/BotConfig.cs keeps configs on disk and what
 * writing and loading them does to the file system and to the in-memory
 * lists: one `{dir}/{id}.json` file per config, the id recovered from the
 * file name on load.
 */
module Persistence {
  import opened Wrappers
  import opened Numbers
  import opened Text
  import opened GuildConfigs
  import opened UserConfigs
  import opened Json

  type Files = map<string, Document>

  /** `BotConfig.UserConfigsDirectory`. */
  function UserConfigsDirectory(configPath: string): string {
    configPath + "/Users"
  }

  /** `BotConfig.GuildConfigsDirectory`. */
  function GuildConfigsDirectory(configPath: string): string {
    configPath + "/Guilds"
  }

  lemma DirectoriesDiffer(configPath: string)
    ensures UserConfigsDirectory(configPath) != GuildConfigsDirectory(configPath)
  {
    assert |UserConfigsDirectory(configPath)| != |GuildConfigsDirectory(configPath)|;
  }

  /** The file a config with this id is written to: `{dir}/{id}.json`. */
  function ConfigFile(dir: string, id: UInt64): string {
    JsonPath(dir, Decimal(id as nat))
  }

  /** The id the loader takes from a file name: `ulong.Parse(Path.GetFileNameWithoutExtension(file))`. */
  function IdFromFileName(path: string): Option<UInt64> {
    ParseULong(FileNameWithoutExtension(path))
  }

  /** A config file is a `*.json` file directly in its directory, and its name gives back its id. */
  lemma ConfigFileRoundTrip(dir: string, id: UInt64)
    ensures InDirectory(ConfigFile(dir, id), dir)
    ensures IsJsonFile(ConfigFile(dir, id))
    ensures IdFromFileName(ConfigFile(dir, id)) == Some(id)
  {
    var stem := Decimal(id as nat);
    assert '/' !in stem && '.' !in stem by {
      assert forall k | 0 <= k < |stem| :: IsDigit(stem[k]);
    }
    JsonPathParts(dir, stem);
    ParseDecimal(id);
  }

  /** Different ids have different files. */
  lemma ConfigFileInjective(dir: string, a: UInt64, b: UInt64)
    ensures ConfigFile(dir, a) == ConfigFile(dir, b) ==> a == b
  {
    ConfigFileRoundTrip(dir, a);
    ConfigFileRoundTrip(dir, b);
  }

  /** The `*.json` files directly in `dir`: what `Directory.GetFiles(dir, "*.json", TopDirectoryOnly)` lists. */
  function JsonFilesIn(files: Files, dir: string): set<string> {
    set p | p in files && InDirectory(p, dir) && IsJsonFile(p)
  }

  /** `listing` names every file of `s` exactly once: a directory listing in the order the OS gives. */
  predicate Enumerates(listing: seq<string>, s: set<string>) {
    && (forall p | p in listing :: p in s)
    && (forall p | p in s :: p in listing)
    && (forall i, j | 0 <= i < j < |listing| :: listing[i] != listing[j])
  }

  // ---------------------------------------------------------------- writing

  /** The ids of a sequence of writes. */
  function EntryIds(entries: seq<(UInt64, Document)>): (ids: seq<UInt64>)
    ensures |ids| == |entries|
    ensures forall i | 0 <= i < |entries| :: ids[i] == entries[i].0
  {
    seq(|entries|, i requires 0 <= i < |entries| => entries[i].0)
  }

  /** The files a sequence of writes into `dir` touches. */
  function WrittenPaths(dir: string, entries: seq<(UInt64, Document)>): set<string> {
    set i | 0 <= i < |entries| :: ConfigFile(dir, entries[i].0)
  }

  /** `File.WriteAllText($"{dir}/{id}.json", body)` for each entry in turn. */
  function WriteConfigs(files: Files, dir: string, entries: seq<(UInt64, Document)>): Files {
    if entries == [] then files
    else
      var n := |entries| - 1;
      WriteConfigs(files, dir, entries[..n])[ConfigFile(dir, entries[n].0) := entries[n].1]
  }

  /** Writing adds exactly the written files. */
  lemma {:induction false} WriteConfigsKeys(files: Files, dir: string, entries: seq<(UInt64, Document)>)
    ensures WriteConfigs(files, dir, entries).Keys == files.Keys + WrittenPaths(dir, entries)
  {
    if entries != [] {
      var n := |entries| - 1;
      WriteConfigsKeys(files, dir, entries[..n]);
      assert WrittenPaths(dir, entries) == WrittenPaths(dir, entries[..n]) + {ConfigFile(dir, entries[n].0)} by {
        assert forall i | 0 <= i < n :: entries[..n][i] == entries[i];
      }
    }
  }

  /** Writing leaves every other file as it was. */
  lemma {:induction false} WriteConfigsElsewhere(files: Files, dir: string, entries: seq<(UInt64, Document)>, p: string)
    requires p in files && p !in WrittenPaths(dir, entries)
    ensures p in WriteConfigs(files, dir, entries)
    ensures WriteConfigs(files, dir, entries)[p] == files[p]
  {
    if entries != [] {
      var n := |entries| - 1;
      assert p != ConfigFile(dir, entries[n].0);
      assert p !in WrittenPaths(dir, entries[..n]);
      WriteConfigsElsewhere(files, dir, entries[..n], p);
    }
  }

  /** The last write to a file decides its body. */
  lemma {:induction false} WriteConfigsAt(files: Files, dir: string, entries: seq<(UInt64, Document)>, i: nat)
    requires i < |entries|
    requires forall j | i < j < |entries| :: entries[j].0 != entries[i].0
    ensures ConfigFile(dir, entries[i].0) in WriteConfigs(files, dir, entries)
    ensures WriteConfigs(files, dir, entries)[ConfigFile(dir, entries[i].0)] == entries[i].1
  {
    var n := |entries| - 1;
    if i < n {
      ConfigFileInjective(dir, entries[n].0, entries[i].0);
      WriteConfigsAt(files, dir, entries[..n], i);
    }
  }

  /** Writes into one directory leave the `*.json` files of another as they were. */
  lemma OtherDirectoryUntouched(files: Files, dir: string, other: string, entries: seq<(UInt64, Document)>)
    requires dir != other
    ensures JsonFilesIn(WriteConfigs(files, dir, entries), other) == JsonFilesIn(files, other)
    ensures forall p | p in JsonFilesIn(files, other) :: WriteConfigs(files, dir, entries)[p] == files[p]
  {
    var r := WriteConfigs(files, dir, entries);
    WriteConfigsKeys(files, dir, entries);
    forall p | p in WrittenPaths(dir, entries)
      ensures !InDirectory(p, other)
    {
      var i :| 0 <= i < |entries| && p == ConfigFile(dir, entries[i].0);
      ConfigFileRoundTrip(dir, entries[i].0);
      if InDirectory(p, other) {
        InOneDirectory(p, dir, other);
      }
    }
    forall p | p in JsonFilesIn(files, other)
      ensures p in r && r[p] == files[p]
    {
      WriteConfigsElsewhere(files, dir, entries, p);
    }
  }

  /** The write of each user config: its id and its serialized body. */
  function UserEntries(users: seq<UserConfig>): (entries: seq<(UInt64, Document)>)
    ensures EntryIds(entries) == UserIds(users)
    ensures forall i | 0 <= i < |users| :: entries[i] == (users[i].associatedId, SerializeUser(users[i]))
  {
    seq(|users|, i requires 0 <= i < |users| => (users[i].associatedId, SerializeUser(users[i])))
  }

  /** The write of each guild config: its id and its serialized body. */
  function GuildEntries(guilds: seq<GuildConfig>): (entries: seq<(UInt64, Document)>)
    ensures EntryIds(entries) == GuildIds(guilds)
    ensures forall i | 0 <= i < |guilds| :: entries[i] == (guilds[i].associatedId, SerializeGuild(guilds[i]))
  {
    seq(|guilds|, i requires 0 <= i < |guilds| => (guilds[i].associatedId, SerializeGuild(guilds[i])))
  }

  /** `SaveConfigs`, and the write-out of `DoCreate`: every user config, then every guild config. */
  function SaveAll(files: Files, configPath: string, users: seq<UserConfig>, guilds: seq<GuildConfig>): Files {
    var afterUsers := WriteConfigs(files, UserConfigsDirectory(configPath), UserEntries(users));
    WriteConfigs(afterUsers, GuildConfigsDirectory(configPath), GuildEntries(guilds))
  }

  // ---------------------------------------------------------------- loading

  /** Why a load stops: the exception the loader lets escape. */
  datatype LoadError =
    | MalformedBody(path: string)  // the body does not deserialize
    | BadFileName(path: string)    // the name is not a `ulong`
    | NullBody(path: string)       // the body reads as `null`, and setting its id dereferences it

  /** The configs read before the load stopped, and why it stopped, if it did. */
  datatype Loaded<T> = Loaded(configs: seq<T>, error: Option<LoadError>)

  /**
   * What happens to a body that reads as `null` once it is read: the file
   * name is parsed before the null config is dereferenced, so a bad name is
   * what fails first.
   */
  function LoadNullBody<T>(path: string): Result<T, LoadError> {
    match IdFromFileName(path)
    case None => Err(BadFileName(path))
    case Some(_) => Err(NullBody(path))
  }

  /** Reading one user config file: the body gives the payload, the file name the id. */
  function LoadUserFile(path: string, body: Document): Result<UserConfig, LoadError> {
    if ReadsAsNull(body) then LoadNullBody(path)
    else
      match DeserializeUser(body)
      case None => Err(MalformedBody(path))
      case Some(u) =>
        match IdFromFileName(path)
        case None => Err(BadFileName(path))
        case Some(id) => Ok(u.(associatedId := id))
  }

  /** Reading one guild config file: the body gives the level data, the file name the id. */
  function LoadGuildFile(path: string, body: Document): Result<GuildConfig, LoadError> {
    if ReadsAsNull(body) then LoadNullBody(path)
    else
      match DeserializeGuild(body)
      case None => Err(MalformedBody(path))
      case Some(g) =>
        match IdFromFileName(path)
        case None => Err(BadFileName(path))
        case Some(id) => Ok(g.(associatedId := id))
  }

  /** A body that reads as `null` always fails, and a bad file name is reported before the null. */
  lemma NullBodyFails(path: string, body: Document)
    requires ReadsAsNull(body)
    ensures LoadUserFile(path, body) == Err(if IdFromFileName(path).None? then BadFileName(path) else NullBody(path))
    ensures LoadGuildFile(path, body) == Err(if IdFromFileName(path).None? then BadFileName(path) else NullBody(path))
  {
  }

  /**
   * The configs read from a sequence of per-file outcomes: those before the
   * first failure, and that failure. The loader has no per-file error
   * handling, so the first file that fails ends the load.
   */
  function Collect<T>(outcomes: seq<Result<T, LoadError>>): (r: Loaded<T>)
    ensures |r.configs| <= |outcomes|
    ensures r.error.None? <==> |r.configs| == |outcomes|
    ensures forall i | 0 <= i < |r.configs| :: outcomes[i] == Ok(r.configs[i])
    ensures r.error.Some? ==> outcomes[|r.configs|] == Err(r.error.value)
  {
    if outcomes == [] then Loaded([], None)
    else
      var n := |outcomes| - 1;
      var prev := Collect(outcomes[..n]);
      assert forall i | 0 <= i < n :: outcomes[..n][i] == outcomes[i];
      if prev.error.Some? then prev
      else if outcomes[n].Err? then Loaded(prev.configs, Some(outcomes[n].error))
      else Loaded(prev.configs + [outcomes[n].value], None)
  }

  /** One more file: a load that has not failed yet takes in its outcome. */
  lemma CollectStep<T>(outcomes: seq<Result<T, LoadError>>, i: nat)
    requires i < |outcomes|
    requires Collect(outcomes[..i]).error.None?
    ensures outcomes[i].Err? ==> Collect(outcomes[..i + 1]) == Loaded(Collect(outcomes[..i]).configs, Some(outcomes[i].error))
    ensures outcomes[i].Ok? ==> Collect(outcomes[..i + 1]) == Loaded(Collect(outcomes[..i]).configs + [outcomes[i].value], None)
  {
    assert outcomes[..i + 1][..i] == outcomes[..i];
  }

  /** Once a load has failed, the files after the failing one are not read. */
  lemma {:induction false} CollectStops<T>(outcomes: seq<Result<T, LoadError>>, i: nat)
    requires i <= |outcomes|
    requires Collect(outcomes[..i]).error.Some?
    ensures Collect(outcomes) == Collect(outcomes[..i])
    decreases |outcomes| - i
  {
    if i < |outcomes| {
      var n := |outcomes| - 1;
      assert outcomes[..n][..i] == outcomes[..i];
      CollectStops(outcomes[..n], i);
    } else {
      assert outcomes[..i] == outcomes;
    }
  }

  /** The outcome of reading each listed file as a user config. */
  function UserFileOutcomes(files: Files, listing: seq<string>): (r: seq<Result<UserConfig, LoadError>>)
    requires forall p | p in listing :: p in files
    ensures |r| == |listing|
    ensures forall i | 0 <= i < |listing| :: r[i] == LoadUserFile(listing[i], files[listing[i]])
  {
    seq(|listing|, i requires 0 <= i < |listing| => LoadUserFile(listing[i], files[listing[i]]))
  }

  /** The outcome of reading each listed file as a guild config. */
  function GuildFileOutcomes(files: Files, listing: seq<string>): (r: seq<Result<GuildConfig, LoadError>>)
    requires forall p | p in listing :: p in files
    ensures |r| == |listing|
    ensures forall i | 0 <= i < |listing| :: r[i] == LoadGuildFile(listing[i], files[listing[i]])
  {
    seq(|listing|, i requires 0 <= i < |listing| => LoadGuildFile(listing[i], files[listing[i]]))
  }

  /** The user-config loop of `LoadConfigs` over a directory listing. */
  function LoadUserFiles(files: Files, listing: seq<string>): Loaded<UserConfig>
    requires forall p | p in listing :: p in files
  {
    Collect(UserFileOutcomes(files, listing))
  }

  /** The guild-config loop of `LoadConfigs` over a directory listing. */
  function LoadGuildFiles(files: Files, listing: seq<string>): Loaded<GuildConfig>
    requires forall p | p in listing :: p in files
  {
    Collect(GuildFileOutcomes(files, listing))
  }

  // ---------------------------------------------------------------- round trip

  /** A config file holding the serialized body of a user config loads back as that config. */
  lemma UserFileLoads(files: Files, dir: string, c: UserConfig)
    requires ConfigFile(dir, c.associatedId) in files
    requires files[ConfigFile(dir, c.associatedId)] == SerializeUser(c)
    ensures LoadUserFile(ConfigFile(dir, c.associatedId), files[ConfigFile(dir, c.associatedId)]) == Ok(c)
  {
    ConfigFileRoundTrip(dir, c.associatedId);
  }

  /** A saved user config is a `*.json` file in its directory that loads back as the same config. */
  lemma SavedUserLoads(files: Files, dir: string, users: seq<UserConfig>, i: nat)
    requires DistinctIds(UserIds(users))
    requires i < |users|
    ensures ConfigFile(dir, users[i].associatedId) in JsonFilesIn(WriteConfigs(files, dir, UserEntries(users)), dir)
    ensures LoadUserFile(ConfigFile(dir, users[i].associatedId), WriteConfigs(files, dir, UserEntries(users))[ConfigFile(dir, users[i].associatedId)]) == Ok(users[i])
  {
    var entries := UserEntries(users);
    var ids := UserIds(users);
    assert forall j | i < j < |entries| :: entries[j].0 != entries[i].0 by {
      assert forall j | i < j < |entries| :: entries[j].0 == ids[j];
    }
    WriteConfigsAt(files, dir, entries, i);
    ConfigFileRoundTrip(dir, users[i].associatedId);
    UserFileLoads(WriteConfigs(files, dir, entries), dir, users[i]);
  }


  /** A config file holding the serialized body of a guild config loads back as that config. */
  lemma GuildFileLoads(files: Files, dir: string, c: GuildConfig)
    requires ConfigFile(dir, c.associatedId) in files
    requires files[ConfigFile(dir, c.associatedId)] == SerializeGuild(c)
    ensures LoadGuildFile(ConfigFile(dir, c.associatedId), files[ConfigFile(dir, c.associatedId)]) == Ok(c)
  {
    ConfigFileRoundTrip(dir, c.associatedId);
  }

  /** A saved guild config is a `*.json` file in its directory that loads back as the same config. */
  lemma SavedGuildLoads(files: Files, dir: string, guilds: seq<GuildConfig>, i: nat)
    requires DistinctIds(GuildIds(guilds))
    requires i < |guilds|
    ensures ConfigFile(dir, guilds[i].associatedId) in JsonFilesIn(WriteConfigs(files, dir, GuildEntries(guilds)), dir)
    ensures LoadGuildFile(ConfigFile(dir, guilds[i].associatedId), WriteConfigs(files, dir, GuildEntries(guilds))[ConfigFile(dir, guilds[i].associatedId)]) == Ok(guilds[i])
  {
    var entries := GuildEntries(guilds);
    var ids := GuildIds(guilds);
    assert forall j | i < j < |entries| :: entries[j].0 != entries[i].0 by {
      assert forall j | i < j < |entries| :: entries[j].0 == ids[j];
    }
    WriteConfigsAt(files, dir, entries, i);
    ConfigFileRoundTrip(dir, guilds[i].associatedId);
    GuildFileLoads(WriteConfigs(files, dir, entries), dir, guilds[i]);
  }


  /** In a directory that had no `*.json` files, each `*.json` file after saving is a saved user config. */
  lemma ListedUserFileIsSaved(files: Files, dir: string, users: seq<UserConfig>, p: string) returns (i: nat)
    requires JsonFilesIn(files, dir) == {}
    requires DistinctIds(UserIds(users))
    requires p in JsonFilesIn(WriteConfigs(files, dir, UserEntries(users)), dir)
    ensures i < |users| && p == ConfigFile(dir, users[i].associatedId)
    ensures LoadUserFile(p, WriteConfigs(files, dir, UserEntries(users))[p]) == Ok(users[i])
  {
    var entries := UserEntries(users);
    WriteConfigsKeys(files, dir, entries);
    assert p in files ==> p in JsonFilesIn(files, dir);
    assert p in WrittenPaths(dir, entries);
    i :| 0 <= i < |entries| && p == ConfigFile(dir, entries[i].0);
    SavedUserLoads(files, dir, users, i);
  }

  /** In a directory that had no `*.json` files, each `*.json` file after saving is a saved guild config. */
  lemma ListedGuildFileIsSaved(files: Files, dir: string, guilds: seq<GuildConfig>, p: string) returns (i: nat)
    requires JsonFilesIn(files, dir) == {}
    requires DistinctIds(GuildIds(guilds))
    requires p in JsonFilesIn(WriteConfigs(files, dir, GuildEntries(guilds)), dir)
    ensures i < |guilds| && p == ConfigFile(dir, guilds[i].associatedId)
    ensures LoadGuildFile(p, WriteConfigs(files, dir, GuildEntries(guilds))[p]) == Ok(guilds[i])
  {
    var entries := GuildEntries(guilds);
    WriteConfigsKeys(files, dir, entries);
    assert p in files ==> p in JsonFilesIn(files, dir);
    assert p in WrittenPaths(dir, entries);
    i :| 0 <= i < |entries| && p == ConfigFile(dir, entries[i].0);
    SavedGuildLoads(files, dir, guilds, i);
  }

  /** A sequence in which no element occurs twice. */
  predicate NoRepeats<T(==)>(xs: seq<T>) {
    forall i, j | 0 <= i < j < |xs| :: xs[i] != xs[j]
  }

  /** In a sequence without repeats every element occurs once. */
  lemma {:induction false} NoRepeatsCount<T>(xs: seq<T>, x: T)
    requires NoRepeats(xs)
    ensures multiset(xs)[x] == if x in xs then 1 else 0
  {
    if xs != [] {
      assert xs == [xs[0]] + xs[1..];
      assert forall i, j | 0 <= i < j < |xs| - 1 :: xs[1..][i] == xs[i + 1] && xs[1..][j] == xs[j + 1];
      NoRepeatsCount(xs[1..], x);
      assert x == xs[0] ==> x !in xs[1..];
    }
  }

  /** Two sequences without repeats that hold the same elements are permutations of each other. */
  lemma SameElementsPermuted<T>(a: seq<T>, b: seq<T>)
    requires NoRepeats(a) && NoRepeats(b)
    requires forall x :: x in a <==> x in b
    ensures multiset(a) == multiset(b)
  {
    forall x
      ensures multiset(a)[x] == multiset(b)[x]
    {
      NoRepeatsCount(a, x);
      NoRepeatsCount(b, x);
    }
  }

  /**
   * Loading a listing of a set of files, where every file `p` of the set reads
   * back as one of `values` whose own file is `p`, and each of `values` is read
   * from its own file `path(v)` of the set, fails nowhere and yields `values`
   * in some order, each of them once.
   */
  lemma CollectListing<T>(listing: seq<string>, s: set<string>, load: string --> Result<T, LoadError>,
                          path: T -> string, outcomes: seq<Result<T, LoadError>>, values: seq<T>)
    requires Enumerates(listing, s)
    requires forall p | p in s :: load.requires(p)
    requires |outcomes| == |listing|
    requires forall k | 0 <= k < |listing| :: outcomes[k] == load(listing[k])
    requires forall p | p in s :: exists i | 0 <= i < |values| :: p == path(values[i]) && load(p) == Ok(values[i])
    requires forall i | 0 <= i < |values| :: path(values[i]) in s && load(path(values[i])) == Ok(values[i])
    requires forall i, j | 0 <= i < j < |values| :: path(values[i]) != path(values[j])
    ensures Collect(outcomes).error == None
    ensures forall u :: u in Collect(outcomes).configs <==> u in values
    ensures forall j, k | 0 <= j < k < |Collect(outcomes).configs| ::
              path(Collect(outcomes).configs[j]) != path(Collect(outcomes).configs[k])
    ensures multiset(Collect(outcomes).configs) == multiset(values)
  {
    var r := Collect(outcomes);
    forall k | 0 <= k < |r.configs|
      ensures path(r.configs[k]) == listing[k]
    {
      assert listing[k] in s;
      var i :| 0 <= i < |values| && listing[k] == path(values[i]) && load(listing[k]) == Ok(values[i]);
    }
    forall u | u in r.configs
      ensures u in values
    {
      var k :| 0 <= k < |r.configs| && r.configs[k] == u;
      assert listing[k] in s;
    }
    forall u | u in values
      ensures u in r.configs
    {
      var i :| 0 <= i < |values| && values[i] == u;
      var k :| 0 <= k < |listing| && listing[k] == path(u);
      assert outcomes[k] == Ok(r.configs[k]);
    }
    SameElementsPermuted(r.configs, values);
  }

  /** After saving user configs, the `*.json` files of the directory are exactly theirs, each reading back as its config. */
  lemma SavedUserFiles(files: Files, dir: string, users: seq<UserConfig>)
    requires JsonFilesIn(files, dir) == {}
    requires DistinctIds(UserIds(users))
    ensures forall p | p in JsonFilesIn(WriteConfigs(files, dir, UserEntries(users)), dir) ::
              exists i | 0 <= i < |users| ::
                p == ConfigFile(dir, users[i].associatedId) && LoadUserFile(p, WriteConfigs(files, dir, UserEntries(users))[p]) == Ok(users[i])
    ensures forall i | 0 <= i < |users| ::
              && ConfigFile(dir, users[i].associatedId) in JsonFilesIn(WriteConfigs(files, dir, UserEntries(users)), dir)
              && LoadUserFile(ConfigFile(dir, users[i].associatedId),
                            WriteConfigs(files, dir, UserEntries(users))[ConfigFile(dir, users[i].associatedId)]) == Ok(users[i])
  {
    var w := WriteConfigs(files, dir, UserEntries(users));
    forall p | p in JsonFilesIn(w, dir)
      ensures exists i | 0 <= i < |users| :: p == ConfigFile(dir, users[i].associatedId) && LoadUserFile(p, w[p]) == Ok(users[i])
    {
      var i := ListedUserFileIsSaved(files, dir, users, p);
    }
    forall i | 0 <= i < |users|
      ensures ConfigFile(dir, users[i].associatedId) in JsonFilesIn(w, dir)
      ensures LoadUserFile(ConfigFile(dir, users[i].associatedId), w[ConfigFile(dir, users[i].associatedId)]) == Ok(users[i])
    {
      SavedUserLoads(files, dir, users, i);
    }
  }

  /** After saving guild configs, the `*.json` files of the directory are exactly theirs, each reading back as its config. */
  lemma SavedGuildFiles(files: Files, dir: string, guilds: seq<GuildConfig>)
    requires JsonFilesIn(files, dir) == {}
    requires DistinctIds(GuildIds(guilds))
    ensures forall p | p in JsonFilesIn(WriteConfigs(files, dir, GuildEntries(guilds)), dir) ::
              exists i | 0 <= i < |guilds| ::
                p == ConfigFile(dir, guilds[i].associatedId) && LoadGuildFile(p, WriteConfigs(files, dir, GuildEntries(guilds))[p]) == Ok(guilds[i])
    ensures forall i | 0 <= i < |guilds| ::
              && ConfigFile(dir, guilds[i].associatedId) in JsonFilesIn(WriteConfigs(files, dir, GuildEntries(guilds)), dir)
              && LoadGuildFile(ConfigFile(dir, guilds[i].associatedId),
                            WriteConfigs(files, dir, GuildEntries(guilds))[ConfigFile(dir, guilds[i].associatedId)]) == Ok(guilds[i])
  {
    var w := WriteConfigs(files, dir, GuildEntries(guilds));
    forall p | p in JsonFilesIn(w, dir)
      ensures exists i | 0 <= i < |guilds| :: p == ConfigFile(dir, guilds[i].associatedId) && LoadGuildFile(p, w[p]) == Ok(guilds[i])
    {
      var i := ListedGuildFileIsSaved(files, dir, guilds, p);
    }
    forall i | 0 <= i < |guilds|
      ensures ConfigFile(dir, guilds[i].associatedId) in JsonFilesIn(w, dir)
      ensures LoadGuildFile(ConfigFile(dir, guilds[i].associatedId), w[ConfigFile(dir, guilds[i].associatedId)]) == Ok(guilds[i])
    {
      SavedGuildLoads(files, dir, guilds, i);
    }
  }

  /**
   * Saving user configs into a directory with no `*.json` files and loading
   * that directory back gives exactly the saved configs, whatever order the
   * directory is listed in.
   */
  lemma SaveThenLoadUsers(files: Files, dir: string, users: seq<UserConfig>, listing: seq<string>)
    requires JsonFilesIn(files, dir) == {}
    requires DistinctIds(UserIds(users))
    requires Enumerates(listing, JsonFilesIn(WriteConfigs(files, dir, UserEntries(users)), dir))
    ensures forall p | p in listing :: p in WriteConfigs(files, dir, UserEntries(users))
    ensures LoadUserFiles(WriteConfigs(files, dir, UserEntries(users)), listing).error == None
    ensures forall u :: u in LoadUserFiles(WriteConfigs(files, dir, UserEntries(users)), listing).configs <==> u in users
    ensures multiset(LoadUserFiles(WriteConfigs(files, dir, UserEntries(users)), listing).configs) == multiset(users)
    ensures DistinctIds(UserIds(LoadUserFiles(WriteConfigs(files, dir, UserEntries(users)), listing).configs))
  {
    var w := WriteConfigs(files, dir, UserEntries(users));
    SavedUserFiles(files, dir, users);
    assert forall p | p in listing :: p in w;
    forall i, j | 0 <= i < j < |users|
      ensures ConfigFile(dir, users[i].associatedId) != ConfigFile(dir, users[j].associatedId)
    {
      ConfigFileInjective(dir, users[i].associatedId, users[j].associatedId);
    }
    CollectListing(listing, JsonFilesIn(w, dir), p requires p in w => LoadUserFile(p, w[p]),
                   (u: UserConfig) => ConfigFile(dir, u.associatedId), UserFileOutcomes(w, listing), users);
  }

  /** The same round trip for guild configs. */
  lemma SaveThenLoadGuilds(files: Files, dir: string, guilds: seq<GuildConfig>, listing: seq<string>)
    requires JsonFilesIn(files, dir) == {}
    requires DistinctIds(GuildIds(guilds))
    requires Enumerates(listing, JsonFilesIn(WriteConfigs(files, dir, GuildEntries(guilds)), dir))
    ensures forall p | p in listing :: p in WriteConfigs(files, dir, GuildEntries(guilds))
    ensures LoadGuildFiles(WriteConfigs(files, dir, GuildEntries(guilds)), listing).error == None
    ensures forall g :: g in LoadGuildFiles(WriteConfigs(files, dir, GuildEntries(guilds)), listing).configs <==> g in guilds
    ensures multiset(LoadGuildFiles(WriteConfigs(files, dir, GuildEntries(guilds)), listing).configs) == multiset(guilds)
    ensures DistinctIds(GuildIds(LoadGuildFiles(WriteConfigs(files, dir, GuildEntries(guilds)), listing).configs))
  {
    var w := WriteConfigs(files, dir, GuildEntries(guilds));
    SavedGuildFiles(files, dir, guilds);
    assert forall p | p in listing :: p in w;
    forall i, j | 0 <= i < j < |guilds|
      ensures ConfigFile(dir, guilds[i].associatedId) != ConfigFile(dir, guilds[j].associatedId)
    {
      ConfigFileInjective(dir, guilds[i].associatedId, guilds[j].associatedId);
    }
    CollectListing(listing, JsonFilesIn(w, dir), p requires p in w => LoadGuildFile(p, w[p]),
                   (g: GuildConfig) => ConfigFile(dir, g.associatedId), GuildFileOutcomes(w, listing), guilds);
  }

  /**
   * Each loaded user config was read from the listed file at the same position:
   * its id is the number its file name gives, and the rest comes from the body.
   */
  lemma LoadedUsersNamedByFiles(files: Files, listing: seq<string>)
    requires forall p | p in listing :: p in files
    ensures forall i | 0 <= i < |LoadUserFiles(files, listing).configs| ::
              && IdFromFileName(listing[i]) == Some(LoadUserFiles(files, listing).configs[i].associatedId)
              && DeserializeUser(files[listing[i]]) == Some(LoadUserFiles(files, listing).configs[i].(associatedId := 0))
  {
    var outcomes := UserFileOutcomes(files, listing);
    var r := Collect(outcomes);
    forall i | 0 <= i < |r.configs|
      ensures IdFromFileName(listing[i]) == Some(r.configs[i].associatedId)
      ensures DeserializeUser(files[listing[i]]) == Some(r.configs[i].(associatedId := 0))
    {
      assert outcomes[i] == LoadUserFile(listing[i], files[listing[i]]) == Ok(r.configs[i]);
    }
  }

  /**
   * Each loaded guild config was read from the listed file at the same position:
   * its id is the number its file name gives, and the rest comes from the body.
   */
  lemma LoadedGuildsNamedByFiles(files: Files, listing: seq<string>)
    requires forall p | p in listing :: p in files
    ensures forall i | 0 <= i < |LoadGuildFiles(files, listing).configs| ::
              && IdFromFileName(listing[i]) == Some(LoadGuildFiles(files, listing).configs[i].associatedId)
              && DeserializeGuild(files[listing[i]]) == Some(LoadGuildFiles(files, listing).configs[i].(associatedId := 0))
  {
    var outcomes := GuildFileOutcomes(files, listing);
    var r := Collect(outcomes);
    forall i | 0 <= i < |r.configs|
      ensures IdFromFileName(listing[i]) == Some(r.configs[i].associatedId)
      ensures DeserializeGuild(files[listing[i]]) == Some(r.configs[i].(associatedId := 0))
    {
      assert outcomes[i] == LoadGuildFile(listing[i], files[listing[i]]) == Ok(r.configs[i]);
    }
  }

  /** Loading reads only the listed files, so files that agree on them load alike. */
  lemma LoadAgrees(a: Files, b: Files, userListing: seq<string>, guildListing: seq<string>)
    requires forall p | p in userListing :: p in a && p in b && a[p] == b[p]
    requires forall p | p in guildListing :: p in a && p in b && a[p] == b[p]
    ensures LoadUserFiles(a, userListing) == LoadUserFiles(b, userListing)
    ensures LoadGuildFiles(a, guildListing) == LoadGuildFiles(b, guildListing)
  {
    assert UserFileOutcomes(a, userListing) == UserFileOutcomes(b, userListing);
    assert GuildFileOutcomes(a, guildListing) == GuildFileOutcomes(b, guildListing);
  }

  /**
   * `SaveConfigs` followed by `LoadConfigs`, starting from config directories
   * with no `*.json` files: both lists come back with exactly the saved
   * configs, ids included.
   */
  lemma SaveAllThenLoad(files: Files, configPath: string, users: seq<UserConfig>, guilds: seq<GuildConfig>,
                        userListing: seq<string>, guildListing: seq<string>)
    requires JsonFilesIn(files, UserConfigsDirectory(configPath)) == {}
    requires JsonFilesIn(files, GuildConfigsDirectory(configPath)) == {}
    requires DistinctIds(UserIds(users)) && DistinctIds(GuildIds(guilds))
    requires Enumerates(userListing, JsonFilesIn(SaveAll(files, configPath, users, guilds), UserConfigsDirectory(configPath)))
    requires Enumerates(guildListing, JsonFilesIn(SaveAll(files, configPath, users, guilds), GuildConfigsDirectory(configPath)))
    ensures forall p | p in userListing + guildListing :: p in SaveAll(files, configPath, users, guilds)
    ensures LoadUserFiles(SaveAll(files, configPath, users, guilds), userListing).error == None
    ensures LoadGuildFiles(SaveAll(files, configPath, users, guilds), guildListing).error == None
    ensures forall u :: u in LoadUserFiles(SaveAll(files, configPath, users, guilds), userListing).configs <==> u in users
    ensures forall g :: g in LoadGuildFiles(SaveAll(files, configPath, users, guilds), guildListing).configs <==> g in guilds
    ensures multiset(LoadUserFiles(SaveAll(files, configPath, users, guilds), userListing).configs) == multiset(users)
    ensures multiset(LoadGuildFiles(SaveAll(files, configPath, users, guilds), guildListing).configs) == multiset(guilds)
    ensures DistinctIds(UserIds(LoadUserFiles(SaveAll(files, configPath, users, guilds), userListing).configs))
    ensures DistinctIds(GuildIds(LoadGuildFiles(SaveAll(files, configPath, users, guilds), guildListing).configs))
  {
    var userDir, guildDir := UserConfigsDirectory(configPath), GuildConfigsDirectory(configPath);
    DirectoriesDiffer(configPath);
    var afterUsers := WriteConfigs(files, userDir, UserEntries(users));
    var all := SaveAll(files, configPath, users, guilds);
    OtherDirectoryUntouched(afterUsers, guildDir, userDir, GuildEntries(guilds));
    OtherDirectoryUntouched(files, userDir, guildDir, UserEntries(users));
    SaveThenLoadUsers(files, userDir, users, userListing);
    SaveThenLoadGuilds(afterUsers, guildDir, guilds, guildListing);
    assert forall p | p in userListing :: p in JsonFilesIn(afterUsers, userDir);
    LoadAgrees(all, afterUsers, userListing, []);
  }
}
