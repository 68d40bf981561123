/**
 * The bodies of the files the bot reads and writes. The JSON format itself is
 * abstract: a config body is the part of the config that is serialized, and
 * anything else a file may hold is plain text.
 */
module Json {
  import opened Wrappers
  import opened Numbers
  import opened GuildConfigs
  import opened UserConfigs

  datatype Document =
    | GuildJson(levelData: LevelData)
    | UserJson(payload: UserPayload)
    | PlainText(text: string)

  /** A body the deserializer reads as `null` rather than as a config: an empty file, or the literal `null`. */
  predicate ReadsAsNull(d: Document) {
    d == PlainText("") || d == PlainText("null")
  }

  /**
   * The body written for a guild config. `AssociatedId` is ignored by the
   * serializer, so the body reads back as the same config with id 0 (the
   * default the serializer passes to the constructor's `id`).
   */
  function SerializeGuild(g: GuildConfig): (d: Document)
    ensures DeserializeGuild(d) == Some(g.(associatedId := 0))
  {
    GuildJson(g.levelData)
  }

  /** Reading a body as a guild config; `None` when it does not hold one. */
  function DeserializeGuild(d: Document): (r: Option<GuildConfig>)
    ensures r.Some? ==> r.value.associatedId == 0
  {
    match d
    case GuildJson(levelData) => Some(GuildConfig(0, levelData))
    case _ => None
  }

  /** The body of a guild config does not depend on its id. */
  lemma SerializeGuildIgnoresId(a: GuildConfig, b: GuildConfig)
    requires a.levelData == b.levelData
    ensures SerializeGuild(a) == SerializeGuild(b)
  {
  }

  /**
   * The body written for a user config. The model leaves the id out of it, as
   * for a guild; the loader sets the id from the file name either way.
   */
  function SerializeUser(u: UserConfig): (d: Document)
    ensures DeserializeUser(d) == Some(u.(associatedId := 0))
  {
    UserJson(u.payload)
  }

  /** Reading a body as a user config; `None` when it does not hold one. */
  function DeserializeUser(d: Document): (r: Option<UserConfig>)
    ensures r.Some? ==> r.value.associatedId == 0
  {
    match d
    case UserJson(payload) => Some(UserConfig(0, payload))
    case _ => None
  }
}
