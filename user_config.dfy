/**
 * The per-user config record. Its source file is not part of this model, so
 * a user config is only its id and a payload the core never looks into.
 */
module UserConfigs {
  import opened Numbers

  /** Whatever a user config stores besides its id. */
  datatype UserPayload = UserPayload(body: string)

  /** The payload of a user config that was just created. */
  const DefaultUserPayload: UserPayload := UserPayload("")

  datatype UserConfig = UserConfig(associatedId: UInt64, payload: UserPayload)

  /** The ids of a list of user configs, in order. */
  function UserIds(users: seq<UserConfig>): (ids: seq<UInt64>)
    ensures |ids| == |users|
    ensures forall i | 0 <= i < |users| :: ids[i] == users[i].associatedId
  {
    seq(|users|, i requires 0 <= i < |users| => users[i].associatedId)
  }

  /** `new UserConfig(id)`: the config of user `id`, with the default payload. */
  function NewUserConfig(id: UInt64): (u: UserConfig)
    ensures u.associatedId == id
    ensures u.payload == DefaultUserPayload
  {
    UserConfig(id, DefaultUserPayload)
  }
}
