/**
 * `BotConfig` of Core/Content/Configs/BotConfig.cs: the in-memory `Users` and
 * `Guilds` lists, loading them from the config directories, provisioning
 * missing configs from a retrying timer, and saving them.
 */
module BotConfigs {
  import opened Wrappers
  import opened Numbers
  import opened GuildConfigs
  import opened UserConfigs
  import opened Json
  import opened Environment
  import opened Persistence
  import opened Provisioning

  const NotReadyWarning: LogMessage :=
    LogMessage(Warning, "Service", "Client not ready, retrying config generation in 5 seconds...")
  const GenerationStarted: LogMessage :=
    LogMessage(Info, "Service", "Bot guild count was not zero, attempting config generation...")
  const GenerationDone: LogMessage :=
    LogMessage(Debug, "Service", "Successfully generated any needed configs, writing configs to files...")

  function SavedUserConfigs(count: nat): LogMessage {
    LogMessage(Debug, "Service", "Saved " + Decimal(count) + " user configs.")
  }

  function SavedGuildConfigs(count: nat): LogMessage {
    LogMessage(Debug, "Service", "Saved " + Decimal(count) + " guild configs.")
  }

  /** What a provisioning pass logs once the client is ready. */
  function ProvisioningLog(users: nat, guilds: nat): seq<LogMessage> {
    [GenerationStarted, GenerationDone, SavedUserConfigs(users), SavedGuildConfigs(guilds)]
  }

  /** `count` copies of the not-ready warning. */
  function Warnings(count: nat): (r: seq<LogMessage>)
    ensures |r| == count
    ensures forall i | 0 <= i < count :: r[i] == NotReadyWarning
  {
    seq(count, _ => NotReadyWarning)
  }

  /** The period of the provisioning timer, in milliseconds. */
  const ProvisionIntervalMs: nat := 5 * 1000

  /**
   * The timer `CreateMissingConfigs` creates: enabled and auto-resetting, with
   * `DoCreate` attached to its `Elapsed` event only when the client reported
   * no guilds at the time.
   */
  class ProvisionTimer {
    const intervalMs: nat
    const handlerAttached: bool
    var enabled: bool

    constructor (handlerAttached: bool)
      ensures intervalMs == ProvisionIntervalMs
      ensures this.handlerAttached == handlerAttached && enabled
    {
      intervalMs := ProvisionIntervalMs;
      this.handlerAttached := handlerAttached;
      enabled := true;
    }
  }

  /** One elapse of the provisioning timer: whether the client is ready then, and the guilds it reports. */
  datatype Tick = Tick(clientReady: bool, clientGuilds: seq<GuildView>)

  /** The first tick at which the client is ready, or `|ticks|` when there is none. */
  function FirstReady(ticks: seq<Tick>): (k: nat)
    ensures k <= |ticks|
    ensures k < |ticks| ==> ticks[k].clientReady
    ensures forall j | 0 <= j < k :: !ticks[j].clientReady
  {
    if ticks == [] || ticks[0].clientReady then 0 else 1 + FirstReady(ticks[1..])
  }

  class BotConfig {
    /** `ConfigService.ConfigPath`, under which the two config directories lie. */
    const configPath: string
    var users: seq<UserConfig>
    var guilds: seq<GuildConfig>

    function Snapshot(): Configs
      reads this
    {
      Configs(users, guilds)
    }

    /** `new BotConfig(users, guilds)`. */
    constructor (configPath: string, users: seq<UserConfig>, guilds: seq<GuildConfig>)
      ensures this.configPath == configPath
      ensures this.users == users && this.guilds == guilds
    {
      this.configPath := configPath;
      this.users := users;
      this.guilds := guilds;
    }

    /**
     * Rebuilds both lists from the `*.json` files of the two config
     * directories, listed in the order the file system gives, then runs
     * `CreateMissingConfigs`. Each config takes its id from its file name. The
     * first file whose body does not deserialize or whose name is not a
     * number ends the load: the lists keep what was read before it and the
     * timer is never created.
     */
    method LoadConfigs(world: World, userListing: seq<string>, guildListing: seq<string>, clientGuildCount: nat)
      returns (error: Option<LoadError>, timer: ProvisionTimer?)
      requires Enumerates(userListing, JsonFilesIn(world.files, UserConfigsDirectory(configPath)))
      requires Enumerates(guildListing, JsonFilesIn(world.files, GuildConfigsDirectory(configPath)))
      modifies this
      ensures users == LoadUserFiles(world.files, userListing).configs
      ensures LoadUserFiles(world.files, userListing).error.Some? ==>
                error == LoadUserFiles(world.files, userListing).error && guilds == []
      ensures LoadUserFiles(world.files, userListing).error.None? ==>
                error == LoadGuildFiles(world.files, guildListing).error &&
                guilds == LoadGuildFiles(world.files, guildListing).configs
      ensures error.None? <==> timer != null
      ensures timer != null ==> fresh(timer) && timer.enabled && timer.handlerAttached == (clientGuildCount == 0)
    {
      timer := null;
      guilds := [];
      error := LoadUserConfigs(world.files, userListing);
      if error.Some? {
        return;
      }
      error := LoadGuildConfigs(world.files, guildListing);
      if error.Some? {
        return;
      }
      timer := CreateMissingConfigs(clientGuildCount);
    }

    /** The user half of `LoadConfigs`: the configs read from the listed files, up to the first bad one. */
    method LoadUserConfigs(files: Files, listing: seq<string>) returns (error: Option<LoadError>)
      requires forall p | p in listing :: p in files
      modifies this
      ensures users == LoadUserFiles(files, listing).configs
      ensures error == LoadUserFiles(files, listing).error
      ensures guilds == old(guilds)
    {
      ghost var outcomes := UserFileOutcomes(files, listing);
      users := [];
      var i := 0;
      while i < |listing|
        invariant 0 <= i <= |listing|
        invariant Collect(outcomes[..i]) == Loaded(users, None)
        invariant guilds == old(guilds)
      {
        var path := listing[i];
        var outcome := LoadUserFile(path, files[path]);
        assert outcome == outcomes[i];
        CollectStep(outcomes, i);
        if outcome.Err? {
          CollectStops(outcomes, i + 1);
          return Some(outcome.error);
        }
        users := users + [outcome.value];
        i := i + 1;
      }
      assert outcomes[..i] == outcomes;
      return None;
    }

    /** The guild half of `LoadConfigs`: the configs read from the listed files, up to the first bad one. */
    method LoadGuildConfigs(files: Files, listing: seq<string>) returns (error: Option<LoadError>)
      requires forall p | p in listing :: p in files
      modifies this
      ensures guilds == LoadGuildFiles(files, listing).configs
      ensures error == LoadGuildFiles(files, listing).error
      ensures users == old(users)
    {
      ghost var outcomes := GuildFileOutcomes(files, listing);
      guilds := [];
      var i := 0;
      while i < |listing|
        invariant 0 <= i <= |listing|
        invariant Collect(outcomes[..i]) == Loaded(guilds, None)
        invariant users == old(users)
      {
        var path := listing[i];
        var outcome := LoadGuildFile(path, files[path]);
        assert outcome == outcomes[i];
        CollectStep(outcomes, i);
        if outcome.Err? {
          CollectStops(outcomes, i + 1);
          return Some(outcome.error);
        }
        guilds := guilds + [outcome.value];
        i := i + 1;
      }
      assert outcomes[..i] == outcomes;
      return None;
    }

    /** Creates the enabled 5-second timer; `DoCreate` is attached only if the client has no guilds yet. */
    method CreateMissingConfigs(clientGuildCount: nat) returns (timer: ProvisionTimer)
      ensures fresh(timer)
      ensures timer.enabled && timer.intervalMs == ProvisionIntervalMs
      ensures timer.handlerAttached == (clientGuildCount == 0)
    {
      timer := new ProvisionTimer(clientGuildCount == 0);
    }

    /**
     * The `Elapsed` handler. When the client is not ready it only logs a
     * warning, and the timer stays as it was, so a later tick retries.
     * Otherwise it disables the timer first, appends the missing configs
     * (with the source's early exits), and writes every config out.
     */
    method DoCreate(timer: ProvisionTimer, clientReady: bool, clientGuilds: seq<GuildView>, world: World)
      modifies this, timer, world
      ensures world.sent == old(world.sent)
      ensures !clientReady ==>
                && Snapshot() == old(Snapshot())
                && timer.enabled == old(timer.enabled)
                && world.files == old(world.files)
                && world.log == old(world.log) + [NotReadyWarning]
      ensures clientReady ==>
                && !timer.enabled
                && Snapshot() == Provision(old(Snapshot()), clientGuilds)
                && world.files == SaveAll(old(world.files), configPath, users, guilds)
                && world.log == old(world.log) + ProvisioningLog(|users|, |guilds|)
    {
      if !clientReady {
        world.Log(NotReadyWarning);
        return;
      }

      timer.enabled := false;
      world.Log(GenerationStarted);
      AddMissingConfigs(clientGuilds);
      world.Log(GenerationDone);
      var userCount, guildCount := WriteConfigFiles(world);
      world.Log(SavedUserConfigs(userCount));
      world.Log(SavedGuildConfigs(guildCount));
    }

    /**
     * The member loop of `DoCreate`: appends a fresh config for each member in
     * order, and stops at the first member who already has one.
     */
    method AddMissingUsers(members: seq<UInt64>)
      modifies this
      ensures users == ScanMembers(old(users), members)
      ensures guilds == old(guilds)
    {
      var m := 0;
      while m < |members|
        invariant 0 <= m <= |members|
        invariant ScanMembers(old(users), members) == ScanMembers(users, members[m..])
        invariant guilds == old(guilds)
      {
        var user := members[m];
        if user in UserIds(users) {
          break;
        }
        users := users + [NewUserConfig(user)];
        assert members[m..][1..] == members[m + 1..];
        m := m + 1;
      }
    }

    /**
     * The guild loop of `DoCreate`: scans each guild's members, then appends
     * a fresh config for the guild, and leaves the loop at the first guild
     * that already has one (after scanning its members).
     */
    method AddMissingConfigs(clientGuilds: seq<GuildView>)
      modifies this
      ensures Snapshot() == Provision(old(Snapshot()), clientGuilds)
    {
      var g := 0;
      while g < |clientGuilds|
        invariant 0 <= g <= |clientGuilds|
        invariant Provision(old(Snapshot()), clientGuilds) == Provision(Snapshot(), clientGuilds[g..])
      {
        var guild := clientGuilds[g];
        assert clientGuilds[g..][0] == guild && clientGuilds[g..][1..] == clientGuilds[g + 1..];
        AddMissingUsers(guild.members);
        if guild.id in GuildIds(guilds) {
          break;
        }
        guilds := guilds + [NewGuildConfig(guild.id)];
        g := g + 1;
      }
    }

    /**
     * Writes every user config, then every guild config, to `{dir}/{id}.json`,
     * counting the files written.
     */
    method WriteConfigFiles(world: World) returns (userCount: nat, guildCount: nat)
      modifies world
      ensures world.files == SaveAll(old(world.files), configPath, users, guilds)
      ensures world.log == old(world.log) && world.sent == old(world.sent)
      ensures userCount == |users| && guildCount == |guilds|
    {
      var userDir := UserConfigsDirectory(configPath);
      var userEntries := UserEntries(users);
      userCount := 0;
      var i := 0;
      while i < |users|
        invariant 0 <= i <= |users| && userCount == i
        invariant world.files == WriteConfigs(old(world.files), userDir, userEntries[..i])
        invariant world.log == old(world.log) && world.sent == old(world.sent)
      {
        world.WriteAllText(ConfigFile(userDir, users[i].associatedId), SerializeUser(users[i]));
        assert userEntries[..i + 1][..i] == userEntries[..i];
        userCount := userCount + 1;
        i := i + 1;
      }
      assert userEntries[..i] == userEntries;

      ghost var afterUsers := world.files;
      var guildDir := GuildConfigsDirectory(configPath);
      var guildEntries := GuildEntries(guilds);
      guildCount := 0;
      var k := 0;
      while k < |guilds|
        invariant 0 <= k <= |guilds| && guildCount == k
        invariant world.files == WriteConfigs(afterUsers, guildDir, guildEntries[..k])
        invariant world.log == old(world.log) && world.sent == old(world.sent)
      {
        world.WriteAllText(ConfigFile(guildDir, guilds[k].associatedId), SerializeGuild(guilds[k]));
        assert guildEntries[..k + 1][..k] == guildEntries[..k];
        guildCount := guildCount + 1;
        k := k + 1;
      }
      assert guildEntries[..k] == guildEntries;
    }

    /** `SaveConfigs`: the same write-out as the end of `DoCreate`, without the counts. */
    method SaveConfigs(world: World)
      modifies world
      ensures world.files == SaveAll(old(world.files), configPath, users, guilds)
      ensures world.log == old(world.log) && world.sent == old(world.sent)
    {
      var _, _ := WriteConfigFiles(world);
    }

    /**
     * A stream of timer elapses, one after another. Ticks arrive only while
     * the timer is enabled, and do something only if `DoCreate` is attached.
     * Every tick before the client is ready logs a warning; the first ready
     * tick provisions and disables the timer, so provisioning runs at most
     * once, and never when the handler was not attached.
     */
    method RunTicks(timer: ProvisionTimer, ticks: seq<Tick>, world: World) returns (runs: nat)
      requires timer.enabled
      modifies this, timer, world
      ensures runs <= 1
      ensures runs == 1 <==> timer.handlerAttached && FirstReady(ticks) < |ticks|
      ensures world.sent == old(world.sent)
      ensures runs == 0 ==>
                && timer.enabled
                && Snapshot() == old(Snapshot())
                && world.files == old(world.files)
                && world.log == old(world.log) + Warnings(if timer.handlerAttached then |ticks| else 0)
      ensures runs == 1 ==>
                && !timer.enabled
                && Snapshot() == Provision(old(Snapshot()), ticks[FirstReady(ticks)].clientGuilds)
                && world.files == SaveAll(old(world.files), configPath, users, guilds)
                && world.log == old(world.log) + Warnings(FirstReady(ticks)) + ProvisioningLog(|users|, |guilds|)
    {
      runs := 0;
      var t := 0;
      while t < |ticks|
        invariant 0 <= t <= |ticks|
        invariant runs == (if timer.handlerAttached && FirstReady(ticks) < t then 1 else 0)
        invariant world.sent == old(world.sent)
        invariant runs == 0 ==>
                    && timer.enabled
                    && Snapshot() == old(Snapshot())
                    && world.files == old(world.files)
                    && world.log == old(world.log) + Warnings(if timer.handlerAttached then t else 0)
        invariant runs == 1 ==>
                    && !timer.enabled
                    && Snapshot() == Provision(old(Snapshot()), ticks[FirstReady(ticks)].clientGuilds)
                    && world.files == SaveAll(old(world.files), configPath, users, guilds)
                    && world.log == old(world.log) + Warnings(FirstReady(ticks)) + ProvisioningLog(|users|, |guilds|)
      {
        if timer.enabled && timer.handlerAttached {
          DoCreate(timer, ticks[t].clientReady, ticks[t].clientGuilds, world);
          if ticks[t].clientReady {
            runs := 1;
          } else {
            assert Warnings(t + 1) == Warnings(t) + [NotReadyWarning];
          }
        }
        t := t + 1;
      }
    }
  }
}
