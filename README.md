# TomatBot configs and life cycle, in Dafny

TomatBot is a Discord bot. This project models the part of it that keeps
per-user and per-guild configs and the part that runs its life cycle:

- **`BotConfig`** (Core/Content/Configs/BotConfig.cs) holds two in-memory lists, `Users` and
  `Guilds`. Each entry is keyed by its `AssociatedId`.
  - `LoadConfigs` rebuilds the lists from one `{id}.json` file per config, in
    `{ConfigPath}/Users` and `{ConfigPath}/Guilds`. The id comes from the file
    name, not from the body.
  - `CreateMissingConfigs` starts a 5-second timer. Its handler `DoCreate` waits until the
    client is ready, then disables the timer. It appends a config for every new
    user and guild, with the source's early `break`s, and writes every config out.
  - `SaveConfigs` writes every config to its file again.
- **`BotStartup`** (Core/BotStartup.cs):
  - the early `token.txt` check, the process-exit hook, and the order of the start-up
    and ready-handler steps;
  - the one-shot restart notification read from `Restarted.txt`;
  - the hourly auto-save;
  - the `_shuttingDown` flag shared by `ShutdownBotAsync` and the exit hook.
- **`GuildConfig`** (Core/Content/Configs/GuildConfig.cs) is the guild record: an id that is not
  serialized, plus `LevelData`, which maps a user id to a (prestige, level, experience) triple of
  32-bit unsigned values.

Layout, one module per file:

| file | module | what it holds |
|---|---|---|
| wrappers.dfy | `Wrappers` | `Option`, `Result` |
| numbers.dfy | `Numbers` | `UInt32`, `UInt64`; `ulong.ToString()` as `Decimal`; `ulong.Parse` as `ParseULong` |
| text.dfy | `Text` | `String.Split(char)`, `Path.GetFileName`, `Path.GetFileNameWithoutExtension`, the `*.json` pattern |
| guild_config.dfy | `GuildConfigs` | the `GuildConfig` record and its constructor |
| user_config.dfy | `UserConfigs` | a user config as an id plus an opaque payload |
| json.dfy | `Json` | file bodies (`Document`) and the abstract serializer |
| environment.dfy | `Environment` | class `World`: the file system as a map from path to body, the log, the messages sent |
| provisioning.dfy | `Provisioning` | what `DoCreate`'s loops do to the lists, as functions, with its properties |
| persistence.dfy | `Persistence` | the paths, what writing and loading do, the save-then-load round trip |
| bot_config.dfy | `BotConfigs` | classes `BotConfig` and `ProvisionTimer`, with the imperative loops |
| bot_startup.dfy | `Startup` | restart-marker parsing, `CheckForRestart`, class `Bot` with the flag and an event trace |

The code changes state in place, so the model does too:

- `BotConfig` is a class whose methods reassign `users` and `guilds` in loops.
- The timer is an object whose `enabled` field `DoCreate` clears.
- The file system, log and sent messages are fields of one `World` object.

Each loop is proved against a specification function. For `DoCreate` these are
`Provisioning.Provision` and `Persistence.SaveAll`; for `LoadConfigs` they are
`Persistence.LoadUserFiles` and `LoadGuildFiles`. The properties the code is
meant to keep are lemmas about those functions: prefixes, distinct ids, where
each scan stops, idempotence and the file round trip.

The bot's collaborators become inputs:

- **Directory listing.** The listing comes in the order the OS gives it. It must name every
  `*.json` file of the directory exactly once.
- **Discord client.** Readiness and the guild member lists are inputs, one `Tick` per timer
  elapse. The guilds and text channels the client can resolve are a `ClientView`.
- **Life cycle.** `Bot.trace` records the steps in order.

### Where the code does something other than one would expect

The model follows the code in each case:

- **Corrupt files.** One would expect a config file with a corrupt body to be logged and
  skipped. `LoadConfigs` has no error handling (BotConfig.cs:40-51). So the first file that
  fails ends the whole load. A file fails when its body does not deserialize, when its body
  reads as `null`, or when its name is not a number. `Users` keeps what was read before that
  file. `Guilds` stays empty if the failure was in the user directory. The provisioning timer
  is never created.
- **Shutdown guard.** A flag shared by two shutdown paths suggests a guarded, once-only
  shutdown. `ShutdownBotAsync` has no guard (BotStartup.cs:171-178); only the exit hook checks
  the flag (BotStartup.cs:52). An explicit shutdown followed by process exit runs the sequence
  once. Two explicit shutdowns run it twice.
- **Provisioning `break`s.** "Create the missing configs" suggests skipping only the entities
  that already have one. In the code, the first known member ends that guild's member scan
  (BotConfig.cs:89-90). The first known guild ends the whole guild scan, after its members were
  scanned (BotConfig.cs:95-96). `Provision` and `ScanMembers` model these `break`s. The
  `*AppendsPrefix` and `*ScansThroughStop` lemmas state exactly which configs are appended.
- **When the marker is read.** The restart check does not run during start-up proper. It runs
  in the `Ready` handler, after the services are initialized (BotStartup.cs:72-73).

## Model

| member | source | states |
|---|---|---|
| Numbers.Decimal | Core/Content/Configs/BotConfig.cs:109 | `{id}` text of a config file name: a non-empty run of digits with no leading zero whose value is the id; a single digit exactly when the id is below 10 |
| Numbers.DecimalInjective | Core/Content/Configs/BotConfig.cs:109 | different ids get different file names |
| Numbers.TrimStart | Core/Content/Configs/BotConfig.cs:43 | the leading white space `ulong.Parse` accepts is dropped: the result is a suffix of the input that does not start with white space, and every character dropped is white space |
| Numbers.TrimEnd | Core/Content/Configs/BotConfig.cs:43 | likewise for trailing white space: a prefix that does not end with white space, and every character dropped is white space |
| Numbers.ParseDigits | Core/Content/Configs/BotConfig.cs:43 | `ulong.Parse` of a string of digits gives their value when it is below 2^64 and fails (overflow) otherwise |
| Numbers.ParseBlank | Core/Content/Configs/BotConfig.cs:43 | an empty or all-white-space string does not parse |
| Numbers.ParseDecimal | Core/Content/Configs/BotConfig.cs:43 | parsing the decimal text of an id gives the id back |
| Text.IndexOf | Core/BotStartup.cs:130 | the first occurrence of the separator, or the length when there is none: no earlier position holds it |
| Text.LastIndexOf | Core/Content/Configs/BotConfig.cs:43 | the last `/` or `.`, or -1: no later position holds it |
| Text.LastIndexOfAppend | Core/Content/Configs/BotConfig.cs:43 | in `a + c + b` with no `c` in `b`, the last `c` is the one after `a` |
| Text.Split | Core/BotStartup.cs:130 | `Split(' ')`: at least one piece, none holding a space, joining back to the input; exactly one piece when the input has no space (empty pieces are kept) |
| Text.SplitJoin | Core/BotStartup.cs:130 | splitting space-free pieces joined by spaces gives the pieces back |
| Text.InOneDirectory | Core/Content/Configs/BotConfig.cs:40 | a file lies directly in one directory only, as `TopDirectoryOnly` lists it |
| Text.JsonPathParts | Core/Content/Configs/BotConfig.cs:109 | `{dir}/{stem}.json` lies directly in `dir`, matches `*.json`, and `GetFileNameWithoutExtension` recovers `stem` |
| Text.JsonPathInjective | Core/Content/Configs/BotConfig.cs:115 | different stems give different paths in one directory |
| GuildConfigs.NewGuildConfig | Core/Content/Configs/GuildConfig.cs:21-25 | `new GuildConfig(id)` has `AssociatedId == id` and an empty `LevelData` |
| UserConfigs.NewUserConfig | Core/Content/Configs/BotConfig.cs:92 | `new UserConfig(id)` has `AssociatedId == id` and the default payload |
| Json.SerializeGuild | Core/Content/Configs/GuildConfig.cs:8-9 | `AssociatedId` is `[JsonIgnore]`: the body reads back as the same config with id 0 |
| Json.DeserializeGuild | Core/Content/Configs/GuildConfig.cs:20-25 | the `[JsonConstructor]` gets no `id` from a body, so every config read from a body has id 0 |
| Json.SerializeGuildIgnoresId | Core/Content/Configs/GuildConfig.cs:8-9 | the body of a guild config does not depend on its id |
| Json.SerializeUser | Core/Content/Configs/BotConfig.cs:109 | a user config's body reads back as the same config with id 0 |
| Json.DeserializeUser | Core/Content/Configs/BotConfig.cs:42 | every user config read from a body has id 0 |
| Environment.World.WriteAllText | Core/Content/Configs/BotConfig.cs:109 | creates or overwrites that one file and changes nothing else |
| Environment.World.Delete | Core/BotStartup.cs:149 | removes that one file (a missing file is no error) and changes nothing else |
| Environment.World.Log | Core/Content/Configs/BotConfig.cs:73-74 | appends one message to the log and changes nothing else |
| Environment.World.Send | Core/BotStartup.cs:144 | appends one message to the sent messages and changes nothing else |
| Provisioning.ScanMembersAppendsPrefix | Core/Content/Configs/BotConfig.cs:87-93 | a guild's member scan appends a new config for exactly the members before its stop point, in order |
| Provisioning.ProvisionAppendsPrefix | Core/Content/Configs/BotConfig.cs:83-99 | the guild scan appends a new config for exactly the guilds before the first known (or repeated) guild, in order |
| Provisioning.ProvisionScansThroughStop | Core/Content/Configs/BotConfig.cs:83-99 | the users are the member scans of every guild up to and including the guild where the guild scan stops |
| Provisioning.ScanMembersExtends | Core/Content/Configs/BotConfig.cs:87-93 | a member scan only appends, and afterwards the guild's first member has a config |
| Provisioning.ProvisionExtends | Core/Content/Configs/BotConfig.cs:83-99 | the old `Users` and `Guilds` are prefixes of the new ones: nothing is removed or reordered |
| Provisioning.ScanMembersKeepsDistinct | Core/Content/Configs/BotConfig.cs:89-92 | a member scan never adds a duplicate user id, counting the users it added itself |
| Provisioning.ProvisionKeepsDistinct | Core/Content/Configs/BotConfig.cs:89-98 | provisioning never adds a duplicate id to either list |
| Provisioning.ProvisionIdempotent | Core/Content/Configs/BotConfig.cs:83-99 | a second pass over the same guilds changes nothing |
| Persistence.DirectoriesDiffer | Core/Content/Configs/BotConfig.cs:16-18 | the user and guild directories are different paths |
| Persistence.ConfigFileRoundTrip | Core/Content/Configs/BotConfig.cs:40-43 | `{dir}/{id}.json` is a `*.json` file directly in `dir` whose name parses back to `id` |
| Persistence.ConfigFileInjective | Core/Content/Configs/BotConfig.cs:107-118 | configs with different ids go to different files |
| Persistence.WriteConfigsKeys | Core/Content/Configs/BotConfig.cs:107-118 | the write loop adds exactly the paths of the configs written |
| Persistence.WriteConfigsElsewhere | Core/Content/Configs/BotConfig.cs:107-118 | files the write loop does not name keep their bodies |
| Persistence.WriteConfigsAt | Core/Content/Configs/BotConfig.cs:107-118 | a config's file holds its body when no later config has its id (the last write wins) |
| Persistence.OtherDirectoryUntouched | Core/Content/Configs/BotConfig.cs:104-118 | writing one directory leaves the `*.json` files of the other directory as they were |
| Persistence.Collect | Core/Content/Configs/BotConfig.cs:40-45 | a load without error handling: its configs are the outcomes of the files before the first failure; it has no error exactly when every file loaded, and its error is the first failure's |
| Persistence.CollectStep | Core/Content/Configs/BotConfig.cs:40-45 | one more file: a load that has not failed takes in that file's config or failure |
| Persistence.CollectStops | Core/Content/Configs/BotConfig.cs:40-45 | once a file has failed, the files after it change nothing |
| Persistence.LoadedUsersNamedByFiles | Core/Content/Configs/BotConfig.cs:40-45 | each loaded user config has the id its file name gives and otherwise the body's contents |
| Persistence.LoadedGuildsNamedByFiles | Core/Content/Configs/BotConfig.cs:47-52 | the same for guild configs |
| Persistence.UserFileLoads | Core/Content/Configs/BotConfig.cs:42-44 | a file at a config's own path, holding that config's body, loads back as that config |
| Persistence.GuildFileLoads | Core/Content/Configs/BotConfig.cs:49-51 | the same for guild configs |
| Persistence.SavedUserLoads | Core/Content/Configs/BotConfig.cs:107-111 | after saving users with distinct ids, each one's file is a `*.json` file of the directory that loads back as it |
| Persistence.SavedGuildLoads | Core/Content/Configs/BotConfig.cs:113-118 | the same for guild configs |
| Persistence.ListedUserFileIsSaved | Core/Content/Configs/BotConfig.cs:40-45 | in a directory that had no `*.json` files, every `*.json` file after saving is some saved user's, and loads back as that user |
| Persistence.ListedGuildFileIsSaved | Core/Content/Configs/BotConfig.cs:47-52 | the same for guild configs |
| Persistence.SavedUserFiles | Core/Content/Configs/BotConfig.cs:40-45 | both directions at once: every `*.json` file loads back as a saved user, and every saved user has a file that loads back as it |
| Persistence.SavedGuildFiles | Core/Content/Configs/BotConfig.cs:47-52 | the same for guild configs |
| Persistence.NullBodyFails | Core/Content/Configs/BotConfig.cs:42-43 | a body that reads as `null` ends the load: with a bad file name the name's parse error escapes first, since `ulong.Parse` runs before the null config is dereferenced; otherwise the null dereference |
| Persistence.CollectListing | Core/Content/Configs/BotConfig.cs:40-45 | loading a listing in which every file gives the value whose own file it is, and every value has its own file, fails nowhere. It yields a permutation of those values (each once), with no two loaded from the same file, in any listing order |
| Persistence.SaveThenLoadUsers | Core/Content/Configs/BotConfig.cs:37-45 | saving users with distinct ids into an empty directory and loading it back, in any listing order, fails nowhere. It gives a permutation of the saved users, so as many as were saved, with distinct ids |
| Persistence.SaveThenLoadGuilds | Core/Content/Configs/BotConfig.cs:47-52 | the same for guilds |
| Persistence.LoadAgrees | Core/Content/Configs/BotConfig.cs:40-52 | loading reads nothing but the listed files |
| Persistence.SaveAllThenLoad | Core/Content/Configs/BotConfig.cs:129-136 | `SaveConfigs` followed by a load fails nowhere and gives back a permutation of the users and of the guilds saved, with distinct ids in each list |
| BotConfigs.ProvisionTimer.constructor | Core/Content/Configs/BotConfig.cs:60-67 | a 5-second timer, enabled, with the handler attached or not |
| BotConfigs.FirstReady | Core/Content/Configs/BotConfig.cs:71-76 | the first tick at which the client is ready: every tick before it was not |
| BotConfigs.BotConfig.constructor | Core/Content/Configs/BotConfig.cs:24-28 | `new BotConfig(users, guilds)` keeps the lists given |
| BotConfigs.BotConfig.LoadConfigs | Core/Content/Configs/BotConfig.cs:32-55 | both lists are rebuilt from the listings. A user-file failure stops the load with `Guilds` empty. Otherwise the guild files load. The timer exists exactly when nothing failed, and its handler is attached exactly when the client has no guilds |
| BotConfigs.BotConfig.LoadUserConfigs | Core/Content/Configs/BotConfig.cs:37-45 | the user loop: `Users` becomes the configs loaded before the first failure, and the failure, if any, is reported |
| BotConfigs.BotConfig.LoadGuildConfigs | Core/Content/Configs/BotConfig.cs:38-52 | the guild loop, likewise for `Guilds` |
| BotConfigs.BotConfig.CreateMissingConfigs | Core/Content/Configs/BotConfig.cs:57-67 | a fresh enabled 5-second timer whose handler is attached exactly when the client reports zero guilds |
| BotConfigs.BotConfig.DoCreate | Core/Content/Configs/BotConfig.cs:69-124 | not ready: only the warning is logged and the timer stays as it was. Ready: the timer is disabled, the lists become `Provision` of the old lists, the files become `SaveAll` of the new lists, and the four messages are logged with the counts equal to the list lengths |
| BotConfigs.BotConfig.AddMissingUsers | Core/Content/Configs/BotConfig.cs:87-93 | `Users` becomes the member scan of the old `Users`; `Guilds` is unchanged |
| BotConfigs.BotConfig.AddMissingConfigs | Core/Content/Configs/BotConfig.cs:83-99 | the lists become `Provision` of the old lists |
| BotConfigs.BotConfig.WriteConfigFiles | Core/Content/Configs/BotConfig.cs:104-118 | the files become `SaveAll` of the lists, and the counters end equal to `Users.Count` and `Guilds.Count` |
| BotConfigs.BotConfig.SaveConfigs | Core/Content/Configs/BotConfig.cs:129-136 | the files become `SaveAll` of the lists, the same paths and bodies `DoCreate` writes |
| BotConfigs.BotConfig.RunTicks | Core/Content/Configs/BotConfig.cs:66-78 | over a sequential stream of ticks, provisioning runs at most once. It runs exactly when the handler is attached and some tick is ready, and then at the first ready tick. Every earlier tick only logs a warning. Nothing happens when the handler is not attached |
| Startup.ParseMarker | Core/BotStartup.cs:130-141 | too few fields exactly when the marker has no space, since `Split(' ')` keeps empty pieces |
| Startup.MarkerTargetFields | Core/BotStartup.cs:130-141 | the marker names a channel exactly when it has at least two fields and both parse as `ulong`, and then it names the ids those two fields give |
| Startup.MarkerFields | Core/BotStartup.cs:130-141 | a marker whose first two fields are decimal ids names that channel, whatever fields follow |
| Startup.MarkerRoundTrip | Core/BotStartup.cs:130-141 | the marker `"{guild} {channel}"` parses back to that guild and channel |
| Startup.Notification | Core/BotStartup.cs:132-146 | at most one message. It is sent exactly when the marker parses to a guild and text channel the client has, and then to that channel, titled "Bot restarted successfully" |
| Startup.RestartNotifies | Core/BotStartup.cs:135-144 | a well-formed marker for a reachable text channel sends exactly one message, to it |
| Startup.NotificationNeedsBothIds | Core/BotStartup.cs:130-144 | a message goes out only for a plain-text marker whose first two fields both parse, to the guild and channel they give, which the client has as a text channel |
| Startup.SingleFieldSendsNothing | Core/BotStartup.cs:132-133 | a marker without a space sends nothing |
| Startup.CheckForRestart | Core/BotStartup.cs:124-152 | marker absent: files and messages unchanged. Marker present: it is deleted and nothing else is, and the messages grow by that marker's notification. The log is never touched |
| Startup.Bot.constructor | Core/BotStartup.cs:22-24 | the flag is clear, the stop token is not cancelled, and nothing is registered yet |
| Startup.Bot.StartBotAsync | Core/BotStartup.cs:42-89 | without `token.txt`: `TokenFileMissing`, with no step taken. Otherwise the hook is registered, the singletons set up, login done with the token file's body, the client started and the ready handler attached, in that order, before the wait |
| Startup.Bot.OnReady | Core/BotStartup.cs:70-84 | once attached: services, restart check, status, guild list, then one more hourly auto-save timer, in that order, with `CheckForRestart`'s effect on files and messages |
| Startup.Bot.AutoSaveTick | Core/BotStartup.cs:78-83 | an auto-save elapse writes every config, as `SaveConfigs` does; the flag, the stop token, the hook, the handler and the timer count stay as they were |
| Startup.Bot.ShutdownBotAsync | Core/BotStartup.cs:171-178 | sets the flag, then cancels the stop token, disposes, stops the client; no guard, and the flag is never cleared |
| Startup.Bot.ExitHook | Core/BotStartup.cs:48-54 | once registered: always saves (treated as finished before the flag check), then runs the shutdown sequence only if the flag was clear; afterwards the flag is set, and the hook, the handler and the timer count are unchanged |
| Startup.Bot.ShutdownThenExit | Core/BotStartup.cs:48-54 | an explicit shutdown then process exit: saved once, the shutdown sequence appears exactly once, and the flag is set and the stop token cancelled |
| Startup.Bot.ExitWithoutShutdown | Core/BotStartup.cs:48-54 | process exit without an earlier shutdown: the files become `SaveAll` of the lists, then the shutdown sequence runs exactly once, leaving the flag set and the stop token cancelled |

## Left out

- Discord client: `LoginAsync`, `StartAsync`, `StopAsync`, `DownloadUsersAsync`, `GetGuild`/`GetChannel`, `SendMessageAsync`. Readiness, member lists and the resolvable text channels are inputs, login and start are trace events, and a send is recorded without modelling delivery.
- `ModifyBotStatus`, `StatisticsActivity` and its 10-second refresh timer: only the `StatusModified` step is recorded.
- `SetupSingletons` and `InitializeServices` (dependency injection and the `ServiceBase` reflection scan), and `Provider` being rebuilt on every access: only their steps are recorded.
- `PopulateGuildsList`: its source is not part of this model; only its step is recorded.
- `UpTime` (process clock), `DefaultPrefix` and `GetGuildPrefix` (it refers to members GuildConfig.cs does not declare).
- The contents of `UserConfig`: its source is not part of this model, so a user config is its id plus an opaque payload.
- The Newtonsoft JSON format: bodies are an abstract `Document`. An empty body and the literal `null` read as `null`; any other body that is not a serialized config of the right kind counts as failing to deserialize. Other texts Newtonsoft also reads as `null` (white space only, comments) are not singled out.
- `Directory.CreateDirectory`: directories exist only as path prefixes.
- Startup.Bot.ExitHook: the hook calls the asynchronous `SaveConfigs` and does not await the task it returns (BotStartup.cs:50-51). Only the writes before the first pending `File.WriteAllTextAsync` run before the flag check; the rest race the shutdown sequence and the process exit. The model treats the save as finished before the flag check, so `ExitHook`, `ShutdownThenExit` and `ExitWithoutShutdown` promise the saved files and record `ConfigsSaved` ahead of the shutdown steps. What the un-awaited save has written when the process ends is not modelled.
- Timers and concurrency: ticks arrive one after another. Nothing is claimed about races between provisioning, the hourly save, the process-exit hook and an explicit shutdown.
- `Startup.Bot.StartBotAsync`: the indefinite wait on the stop token ends the modelled start-up (`AwaitingStop`); its return after cancellation is not a separate step.
- Exceptions the code does not handle other than those modelled (a failing login or file write, a missing `ConfigService` provider) are not modelled.
- Numbers.ParseULong: models `NumberStyles.Integer` with the invariant culture (white space U+0009 to U+000D and U+0020, one optional `+` or `-`, `-0` allowed); culture-specific signs and trailing NUL characters are not modelled.
- Text.FileName: `/` is the only path separator; the `\` that `Path` also accepts on Windows is not modelled.
- Startup.MarkerOf: a marker body that is not plain text counts as unparsable; `Restarted.txt` is always text in practice.
- Startup.Bot.StartBotAsync: the token is the body of `token.txt` as read, not validated.
- `BotConfig()` (the parameterless constructor, BotConfig.cs:30) is `BotConfig.constructor` followed by `LoadConfigs`; it is not a member of its own.
- The command handlers (help, say, the owner check) are user-interface glue over the Discord library.
