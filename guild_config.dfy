/** The per-guild config record of Core/Content/Configs/GuildConfig.cs. */
module GuildConfigs {
  import opened Numbers

  /** What the bot keeps about one member of a guild: prestiges, levels, experience. */
  datatype LevelEntry = LevelEntry(prestige: UInt32, level: UInt32, experience: UInt32)

  /** Member user id to that member's entry; a dictionary, so one entry per user id. */
  type LevelData = map<UInt64, LevelEntry>

  /**
   * A guild's config. `associatedId` is the guild id; it is not part of the
   * serialized body, so it comes from the constructor or from the file name
   * the config was loaded from.
   */
  datatype GuildConfig = GuildConfig(associatedId: UInt64, levelData: LevelData)

  /** The ids of a list of guild configs, in order. */
  function GuildIds(guilds: seq<GuildConfig>): (ids: seq<UInt64>)
    ensures |ids| == |guilds|
    ensures forall i | 0 <= i < |guilds| :: ids[i] == guilds[i].associatedId
  {
    seq(|guilds|, i requires 0 <= i < |guilds| => guilds[i].associatedId)
  }

  /** `new GuildConfig(id)`: the config of guild `id`, with no level data yet. */
  function NewGuildConfig(id: UInt64): (g: GuildConfig)
    ensures g.associatedId == id
    ensures g.levelData == map[]
  {
    GuildConfig(id, map[])
  }
}
