/**
 * `BotStartup` of Core/BotStartup.cs: the start-up sequence, the ready
 * handler, the restart notification read from `Restarted.txt`, the hourly
 * auto-save, and shutdown from a command or from the process-exit hook.
 */
module Startup {
  import opened Wrappers
  import opened Numbers
  import opened Text
  import opened Json
  import opened Environment
  import opened Persistence
  import opened BotConfigs

  const TokenPath: string := "token.txt"
  const MarkerPath: string := "Restarted.txt"
  const RestartTitle: string := "Bot restarted successfully"

  /** What the first two space-separated fields of the restart marker say. */
  datatype MarkerParse = TooFewFields | Unparsable | Target(guildId: UInt64, channelId: UInt64)

  /**
   * `Split(' ')` keeps empty pieces, so only a text without any space has too
   * few fields; fields after the second are ignored.
   */
  function ParseMarker(text: string): (r: MarkerParse)
    ensures r == TooFewFields <==> ' ' !in text
  {
    var ids := Split(text, ' ');
    if |ids| < 2 then TooFewFields
    else
      match (ParseULong(ids[0]), ParseULong(ids[1]))
      case (Some(guildId), Some(channelId)) => Target(guildId, channelId)
      case _ => Unparsable
  }

  /** A marker whose first two fields are the decimal ids names that channel, whatever follows. */
  lemma MarkerFields(guildId: UInt64, channelId: UInt64, extra: seq<string>)
    requires forall k | 0 <= k < |extra| :: ' ' !in extra[k]
    ensures ParseMarker(Join([Decimal(guildId as nat), Decimal(channelId as nat)] + extra, ' '))
            == Target(guildId, channelId)
  {
    var g, c := Decimal(guildId as nat), Decimal(channelId as nat);
    var parts := [g, c] + extra;
    forall k | 0 <= k < |parts|
      ensures ' ' !in parts[k]
    {
      if k >= 2 {
        assert parts[k] == extra[k - 2];
      }
    }
    SplitJoin(parts, ' ');
    ParseDecimal(guildId);
    ParseDecimal(channelId);
    MarkerOfFields(Join(parts, ' '), guildId, channelId);
  }

  /** A text whose first two fields parse names those ids. */
  lemma MarkerOfFields(text: string, guildId: UInt64, channelId: UInt64)
    requires |Split(text, ' ')| >= 2
    requires ParseULong(Split(text, ' ')[0]) == Some(guildId)
    requires ParseULong(Split(text, ' ')[1]) == Some(channelId)
    ensures ParseMarker(text) == Target(guildId, channelId)
  {
  }

  /**
   * A marker names a channel exactly when it has two fields and both parse,
   * and then it names the ids those two fields give.
   */
  lemma MarkerTargetFields(text: string)
    ensures ParseMarker(text).Target? <==>
              && |Split(text, ' ')| >= 2
              && ParseULong(Split(text, ' ')[0]).Some?
              && ParseULong(Split(text, ' ')[1]).Some?
    ensures ParseMarker(text).Target? ==>
              && ParseULong(Split(text, ' ')[0]) == Some(ParseMarker(text).guildId)
              && ParseULong(Split(text, ' ')[1]) == Some(ParseMarker(text).channelId)
  {
  }

  /** The marker the restart command writes, `"{guild} {channel}"`, names that channel. */
  lemma MarkerRoundTrip(guildId: UInt64, channelId: UInt64)
    ensures ParseMarker(Decimal(guildId as nat) + " " + Decimal(channelId as nat)) == Target(guildId, channelId)
  {
    var parts := [Decimal(guildId as nat), Decimal(channelId as nat)];
    assert parts + [] == parts;
    assert Join(parts[1..], ' ') == Decimal(channelId as nat);
    MarkerFields(guildId, channelId, []);
  }

  /** The guilds the client can see, each with the ids of its text channels. */
  datatype ClientView = ClientView(textChannels: map<UInt64, set<UInt64>>)

  predicate HasTextChannel(client: ClientView, guildId: UInt64, channelId: UInt64) {
    guildId in client.textChannels && channelId in client.textChannels[guildId]
  }

  /** What a marker file's body says; a body that is not plain text does not parse. */
  function MarkerOf(body: Document): MarkerParse {
    if body.PlainText? then ParseMarker(body.text) else Unparsable
  }

  /**
   * The message `CheckForRestart` sends for a marker: one embed to the named
   * channel when the marker parses and the client has that guild and that
   * text channel, and nothing otherwise (every failure is swallowed).
   */
  function Notification(marker: MarkerParse, client: ClientView): (r: seq<Outgoing>)
    ensures |r| <= 1
    ensures |r| == 1 <==> marker.Target? && HasTextChannel(client, marker.guildId, marker.channelId)
    ensures |r| == 1 ==> r[0].destination == Destination(marker.guildId, marker.channelId)
    ensures forall k | 0 <= k < |r| :: r[k].embedTitle == RestartTitle
  {
    match marker
    case Target(guildId, channelId) =>
      if HasTextChannel(client, guildId, channelId)
      then [Outgoing(Destination(guildId, channelId), RestartTitle)]
      else []
    case _ => []
  }

  /** A marker written for a text channel the client has produces exactly one message, to that channel. */
  lemma RestartNotifies(guildId: UInt64, channelId: UInt64, client: ClientView)
    requires HasTextChannel(client, guildId, channelId)
    ensures Notification(MarkerOf(PlainText(Decimal(guildId as nat) + " " + Decimal(channelId as nat))), client)
            == [Outgoing(Destination(guildId, channelId), RestartTitle)]
  {
    MarkerRoundTrip(guildId, channelId);
  }

  /**
   * A message goes out only for a plain-text marker whose first two fields
   * both parse, to the channel they name, which the client has.
   */
  lemma NotificationNeedsBothIds(body: Document, client: ClientView)
    requires Notification(MarkerOf(body), client) != []
    ensures body.PlainText?
    ensures |Split(body.text, ' ')| >= 2
    ensures ParseULong(Split(body.text, ' ')[0]) == Some(Notification(MarkerOf(body), client)[0].destination.guildId)
    ensures ParseULong(Split(body.text, ' ')[1]) == Some(Notification(MarkerOf(body), client)[0].destination.channelId)
    ensures HasTextChannel(client, Notification(MarkerOf(body), client)[0].destination.guildId,
                           Notification(MarkerOf(body), client)[0].destination.channelId)
  {
    MarkerTargetFields(body.text);
  }

  /** A marker without a space sends nothing. */
  lemma SingleFieldSendsNothing(text: string, client: ClientView)
    requires ' ' !in text
    ensures Notification(MarkerOf(PlainText(text)), client) == []
  {
  }

  /** `CheckForRestart`: reports a restart to the channel in the marker, and always deletes the marker. */
  method CheckForRestart(world: World, client: ClientView)
    modifies world
    ensures MarkerPath !in old(world.files) ==>
              world.files == old(world.files) && world.sent == old(world.sent)
    ensures MarkerPath in old(world.files) ==>
              && world.files == old(world.files) - {MarkerPath}
              && world.sent == old(world.sent) + Notification(MarkerOf(old(world.files)[MarkerPath]), client)
    ensures world.log == old(world.log)
  {
    if MarkerPath !in world.files {
      return;
    }
    var parsed := MarkerOf(world.files[MarkerPath]);
    if parsed.Target? && HasTextChannel(client, parsed.guildId, parsed.channelId) {
      world.Send(Outgoing(Destination(parsed.guildId, parsed.channelId), RestartTitle));
    }
    world.Delete(MarkerPath);
  }

  datatype StartupError = TokenFileMissing

  /** The steps of the life cycle that the model records, in the order they happen. */
  datatype Event =
    | ExitHookRegistered
    | SingletonsSetUp
    | LoggedIn(token: Document)
    | ClientStarted
    | ReadyHandlerAttached
    | AwaitingStop
    | ServicesInitialized
    | RestartChecked
    | StatusModified
    | GuildsListPopulated
    | AutoSaveTimerStarted
    | ConfigsSaved
    | ShutdownFlagSet
    | StopTokenCancelled
    | ProviderDisposed
    | ClientStopped

  /** What `ShutdownBotAsync` does, in order. */
  const ShutdownSequence: seq<Event> := [ShutdownFlagSet, StopTokenCancelled, ProviderDisposed, ClientStopped]

  /** How many times a trace sets the shutdown flag, that is, how many shutdown sequences it starts. */
  function Shutdowns(trace: seq<Event>): (n: nat)
    ensures n <= |trace|
    ensures n > 0 ==> ShutdownFlagSet in trace
  {
    if trace == [] then 0 else (if trace[0] == ShutdownFlagSet then 1 else 0) + Shutdowns(trace[1..])
  }

  /** Counting over a concatenation adds up. */
  lemma {:induction false} ShutdownsAppend(a: seq<Event>, b: seq<Event>)
    ensures Shutdowns(a + b) == Shutdowns(a) + Shutdowns(b)
  {
    if a == [] {
      assert a + b == b;
    } else {
      assert (a + b)[1..] == a[1..] + b;
      ShutdownsAppend(a[1..], b);
    }
  }

  /** Saving adds no shutdown, and one shutdown sequence adds exactly one, in either order. */
  lemma OneMoreShutdown(trace: seq<Event>)
    ensures Shutdowns(trace + ShutdownSequence + [ConfigsSaved]) == Shutdowns(trace) + 1
    ensures Shutdowns(trace + [ConfigsSaved] + ShutdownSequence) == Shutdowns(trace) + 1
  {
    ShutdownsAppend(trace, ShutdownSequence);
    ShutdownsAppend(trace + ShutdownSequence, [ConfigsSaved]);
    ShutdownsAppend(trace, [ConfigsSaved]);
    ShutdownsAppend(trace + [ConfigsSaved], ShutdownSequence);
    assert Shutdowns(ShutdownSequence) == 1;
    assert Shutdowns([ConfigsSaved]) == 0;
  }

  /**
   * The static state of `BotStartup`: the `_shuttingDown` flag, the stop
   * token, the handlers and timers it has set up, and the config the
   * services share.
   */
  class Bot {
    const config: BotConfig
    var shuttingDown: bool
    var stopCancelled: bool
    var exitHookRegistered: bool
    var readyHandlerAttached: bool
    var autoSaveTimers: nat
    var trace: seq<Event>

    constructor (config: BotConfig)
      ensures this.config == config
      ensures !shuttingDown && !stopCancelled && !exitHookRegistered && !readyHandlerAttached
      ensures autoSaveTimers == 0 && trace == []
    {
      this.config := config;
      shuttingDown := false;
      stopCancelled := false;
      exitHookRegistered := false;
      readyHandlerAttached := false;
      autoSaveTimers := 0;
      trace := [];
    }

    /**
     * `StartBotAsync` up to the indefinite wait on the stop token. Without a
     * `token.txt` it fails before doing anything; otherwise it registers the
     * exit hook, sets up the services, logs in with the token file's body,
     * starts the client and attaches the ready handler.
     */
    method StartBotAsync(world: World) returns (error: Option<StartupError>)
      modifies this
      ensures TokenPath !in world.files ==>
                error == Some(TokenFileMissing) && trace == old(trace) &&
                exitHookRegistered == old(exitHookRegistered) && readyHandlerAttached == old(readyHandlerAttached)
      ensures TokenPath in world.files ==>
                && error == None
                && exitHookRegistered && readyHandlerAttached
                && trace == old(trace) + [ExitHookRegistered, SingletonsSetUp, LoggedIn(world.files[TokenPath]),
                                          ClientStarted, ReadyHandlerAttached, AwaitingStop]
      ensures shuttingDown == old(shuttingDown) && stopCancelled == old(stopCancelled)
      ensures autoSaveTimers == old(autoSaveTimers)
    {
      if TokenPath !in world.files {
        return Some(TokenFileMissing);
      }
      exitHookRegistered := true;
      trace := trace + [ExitHookRegistered];
      trace := trace + [SingletonsSetUp];
      var token := world.files[TokenPath];
      trace := trace + [LoggedIn(token)];
      trace := trace + [ClientStarted];
      readyHandlerAttached := true;
      trace := trace + [ReadyHandlerAttached];
      trace := trace + [AwaitingStop];
      return None;
    }

    /**
     * The `Ready` handler, run each time the client becomes ready once it is
     * attached: services, restart check, status, guild list, and one more
     * auto-save timer.
     */
    method OnReady(world: World, client: ClientView)
      modifies this, world
      ensures !old(readyHandlerAttached) ==>
                && trace == old(trace) && autoSaveTimers == old(autoSaveTimers)
                && world.files == old(world.files) && world.sent == old(world.sent)
      ensures old(readyHandlerAttached) ==>
                && trace == old(trace) + [ServicesInitialized, RestartChecked, StatusModified,
                                          GuildsListPopulated, AutoSaveTimerStarted]
                && autoSaveTimers == old(autoSaveTimers) + 1
                && world.files == (if MarkerPath in old(world.files) then old(world.files) - {MarkerPath} else old(world.files))
                && world.sent == old(world.sent) +
                                 (if MarkerPath in old(world.files) then Notification(MarkerOf(old(world.files)[MarkerPath]), client) else [])
      ensures world.log == old(world.log)
      ensures shuttingDown == old(shuttingDown) && stopCancelled == old(stopCancelled)
      ensures exitHookRegistered == old(exitHookRegistered) && readyHandlerAttached == old(readyHandlerAttached)
    {
      if !readyHandlerAttached {
        return;
      }
      trace := trace + [ServicesInitialized];
      CheckForRestart(world, client);
      trace := trace + [RestartChecked];
      trace := trace + [StatusModified];
      trace := trace + [GuildsListPopulated];
      autoSaveTimers := autoSaveTimers + 1;
      trace := trace + [AutoSaveTimerStarted];
    }

    /** One elapse of an auto-save timer: saves every config. */
    method AutoSaveTick(world: World)
      requires autoSaveTimers > 0
      modifies this, world
      ensures world.files == SaveAll(old(world.files), config.configPath, config.users, config.guilds)
      ensures world.log == old(world.log) && world.sent == old(world.sent)
      ensures trace == old(trace) + [ConfigsSaved]
      ensures shuttingDown == old(shuttingDown) && stopCancelled == old(stopCancelled)
      ensures exitHookRegistered == old(exitHookRegistered) && readyHandlerAttached == old(readyHandlerAttached)
      ensures autoSaveTimers == old(autoSaveTimers)
    {
      config.SaveConfigs(world);
      trace := trace + [ConfigsSaved];
    }

    /**
     * `ShutdownBotAsync`: sets the flag, cancels the stop token, disposes the
     * provider and stops the client. It does not check the flag first.
     */
    method ShutdownBotAsync()
      modifies this
      ensures shuttingDown && stopCancelled
      ensures trace == old(trace) + ShutdownSequence
      ensures exitHookRegistered == old(exitHookRegistered) && readyHandlerAttached == old(readyHandlerAttached)
      ensures autoSaveTimers == old(autoSaveTimers)
    {
      shuttingDown := true;
      trace := trace + [ShutdownFlagSet];
      stopCancelled := true;
      trace := trace + [StopTokenCancelled];
      trace := trace + [ProviderDisposed];
      trace := trace + [ClientStopped];
    }

    /**
     * The process-exit handler, once registered: always saves the configs,
     * and shuts down only if no shutdown has started.
     */
    method ExitHook(world: World)
      modifies this, world
      ensures !old(exitHookRegistered) ==> trace == old(trace) && world.files == old(world.files)
      ensures old(exitHookRegistered) ==>
                && world.files == SaveAll(old(world.files), config.configPath, config.users, config.guilds)
                && trace == old(trace) + [ConfigsSaved] + (if old(shuttingDown) then [] else ShutdownSequence)
      ensures shuttingDown == (old(shuttingDown) || old(exitHookRegistered))
      ensures stopCancelled == (old(stopCancelled) || (old(exitHookRegistered) && !old(shuttingDown)))
      ensures world.log == old(world.log) && world.sent == old(world.sent)
      ensures exitHookRegistered == old(exitHookRegistered) && readyHandlerAttached == old(readyHandlerAttached)
      ensures autoSaveTimers == old(autoSaveTimers)
    {
      if !exitHookRegistered {
        return;
      }
      config.SaveConfigs(world);
      trace := trace + [ConfigsSaved];
      if !shuttingDown {
        ShutdownBotAsync();
      }
    }

    /**
     * A shutdown command followed by the process exiting: the exit hook saves
     * the configs but does not run the shutdown sequence a second time.
     */
    method ShutdownThenExit(world: World)
      requires exitHookRegistered
      modifies this, world
      ensures trace == old(trace) + ShutdownSequence + [ConfigsSaved]
      ensures Shutdowns(trace) == Shutdowns(old(trace)) + 1
      ensures world.files == SaveAll(old(world.files), config.configPath, config.users, config.guilds)
      ensures shuttingDown && stopCancelled
    {
      ShutdownBotAsync();
      ExitHook(world);
      OneMoreShutdown(old(trace));
    }

    /** The process exiting with no shutdown before it runs the shutdown sequence exactly once. */
    method ExitWithoutShutdown(world: World)
      requires exitHookRegistered && !shuttingDown
      modifies this, world
      ensures trace == old(trace) + [ConfigsSaved] + ShutdownSequence
      ensures Shutdowns(trace) == Shutdowns(old(trace)) + 1
      ensures shuttingDown && stopCancelled
      ensures world.files == SaveAll(old(world.files), config.configPath, config.users, config.guilds)
    {
      ExitHook(world);
      OneMoreShutdown(old(trace));
    }
  }
}
