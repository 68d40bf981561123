/**
 * What the provisioning loops of `DoCreate` (Core/Content/Configs/BotConfig.cs)
 * do to the two config lists, as functions of the lists and of the guilds the
 * client reports, with the source's `break`s: the user scan of a guild stops
 * at its first member that already has a config, and the guild scan stops at
 * the first guild that already has one, after that guild's members were
 * scanned.
 */
module Provisioning {
  import opened Numbers
  import opened GuildConfigs
  import opened UserConfigs

  /** A guild as the client reports it once its members are downloaded. */
  datatype GuildView = GuildView(id: UInt64, members: seq<UInt64>)

  /** The two in-memory config lists, `Users` and `Guilds`. */
  datatype Configs = Configs(users: seq<UserConfig>, guilds: seq<GuildConfig>)

  function ViewIds(views: seq<GuildView>): (ids: seq<UInt64>)
    ensures |ids| == |views|
    ensures forall i | 0 <= i < |views| :: ids[i] == views[i].id
  {
    seq(|views|, i requires 0 <= i < |views| => views[i].id)
  }

  /** The inner loop: append a config per member until a member already has one. */
  function ScanMembers(users: seq<UserConfig>, members: seq<UInt64>): seq<UserConfig>
    decreases members
  {
    if members == [] then users
    else if members[0] in UserIds(users) then users
    else ScanMembers(users + [NewUserConfig(members[0])], members[1..])
  }

  /** The outer loop: scan each guild's members, then append its config or stop. */
  function Provision(c: Configs, guilds: seq<GuildView>): Configs
    decreases guilds
  {
    if guilds == [] then c
    else
      var users := ScanMembers(c.users, guilds[0].members);
      if guilds[0].id in GuildIds(c.guilds) then Configs(users, c.guilds)
      else Provision(Configs(users, c.guilds + [NewGuildConfig(guilds[0].id)]), guilds[1..])
  }

  /** The member scan of every guild in turn, with no guild scan stopping it. */
  function ScanEach(users: seq<UserConfig>, guilds: seq<GuildView>): seq<UserConfig>
    decreases guilds
  {
    if guilds == [] then users else ScanEach(ScanMembers(users, guilds[0].members), guilds[1..])
  }

  function NewUserConfigs(ids: seq<UInt64>): (r: seq<UserConfig>)
    ensures |r| == |ids|
    ensures forall i | 0 <= i < |ids| :: r[i] == NewUserConfig(ids[i])
  {
    seq(|ids|, i requires 0 <= i < |ids| => NewUserConfig(ids[i]))
  }

  function NewGuildConfigs(ids: seq<UInt64>): (r: seq<GuildConfig>)
    ensures |r| == |ids|
    ensures forall i | 0 <= i < |ids| :: r[i] == NewGuildConfig(ids[i])
  {
    seq(|ids|, i requires 0 <= i < |ids| => NewGuildConfig(ids[i]))
  }

  /**
   * `k` is where a scan of `ids` stops when the ids in `known` already have
   * configs: the ids before `k` are new and pairwise different, and the id at
   * `k`, if any, is known or repeats an earlier one.
   */
  predicate StopsAt(known: seq<UInt64>, ids: seq<UInt64>, k: nat) {
    && k <= |ids|
    && (forall j | 0 <= j < k :: ids[j] !in known && ids[j] !in ids[..j])
    && (k < |ids| ==> ids[k] in known || ids[k] in ids[..k])
  }

  /** Where the scan starts over one id later, once the first id is known. */
  lemma StopsAtTail(known: seq<UInt64>, ids: seq<UInt64>, k: nat)
    requires StopsAt(known, ids, k) && 0 < k
    ensures StopsAt(known + [ids[0]], ids[1..], k - 1)
  {
    var tail := ids[1..];
    forall j | 0 <= j < k - 1
      ensures tail[j] !in known + [ids[0]] && tail[j] !in tail[..j]
    {
      assert ids[..j + 1] == [ids[0]] + tail[..j];
    }
    if k - 1 < |tail| {
      assert ids[..k] == [ids[0]] + tail[..k - 1];
    }
  }

  /**
   * The user scan of one guild appends exactly the members before its stop
   * point, in order, and nothing else.
   */
  lemma {:induction false} ScanMembersAppendsPrefix(users: seq<UserConfig>, members: seq<UInt64>, k: nat)
    requires StopsAt(UserIds(users), members, k)
    ensures ScanMembers(users, members) == users + NewUserConfigs(members[..k])
    decreases members
  {
    if members != [] && members[0] !in UserIds(users) {
      assert k != 0;
      var users' := users + [NewUserConfig(members[0])];
      UserIdsAppend(users, NewUserConfig(members[0]));
      StopsAtTail(UserIds(users), members, k);
      ScanMembersAppendsPrefix(users', members[1..], k - 1);
      NewUserConfigsCons(members, k);
      var rest := NewUserConfigs(members[1..][..k - 1]);
      calc {
        ScanMembers(users, members);
        ScanMembers(users', members[1..]);
        users' + rest;
        users + ([NewUserConfig(members[0])] + rest);
        users + NewUserConfigs(members[..k]);
      }
    } else {
      assert members[..k] == [];
    }
  }

  lemma UserIdsAppend(users: seq<UserConfig>, u: UserConfig)
    ensures UserIds(users + [u]) == UserIds(users) + [u.associatedId]
  {
    assert forall i | 0 <= i < |users| :: (users + [u])[i] == users[i];
  }

  lemma NewUserConfigsCons(ids: seq<UInt64>, k: nat)
    requires 0 < k <= |ids|
    ensures NewUserConfigs(ids[..k]) == [NewUserConfig(ids[0])] + NewUserConfigs(ids[1..][..k - 1])
  {
    assert forall i | 0 < i < k :: ids[..k][i] == ids[1..][..k - 1][i - 1];
  }

  lemma GuildIdsAppend(guilds: seq<GuildConfig>, g: GuildConfig)
    ensures GuildIds(guilds + [g]) == GuildIds(guilds) + [g.associatedId]
  {
    assert forall i | 0 <= i < |guilds| :: (guilds + [g])[i] == guilds[i];
  }

  lemma NewGuildConfigsCons(ids: seq<UInt64>, k: nat)
    requires 0 < k <= |ids|
    ensures NewGuildConfigs(ids[..k]) == [NewGuildConfig(ids[0])] + NewGuildConfigs(ids[1..][..k - 1])
  {
    assert forall i | 0 < i < k :: ids[..k][i] == ids[1..][..k - 1][i - 1];
  }

  /** The guild scan appends exactly the guilds before its stop point, in order. */
  lemma {:induction false} ProvisionAppendsPrefix(c: Configs, guilds: seq<GuildView>, k: nat)
    requires StopsAt(GuildIds(c.guilds), ViewIds(guilds), k)
    ensures Provision(c, guilds).guilds == c.guilds + NewGuildConfigs(ViewIds(guilds)[..k])
    decreases guilds
  {
    if guilds != [] && guilds[0].id !in GuildIds(c.guilds) {
      var ids := ViewIds(guilds);
      assert k != 0;
      var c' := Configs(ScanMembers(c.users, guilds[0].members), c.guilds + [NewGuildConfig(guilds[0].id)]);
      GuildIdsAppend(c.guilds, NewGuildConfig(guilds[0].id));
      StopsAtTail(GuildIds(c.guilds), ids, k);
      assert ViewIds(guilds[1..]) == ids[1..];
      ProvisionAppendsPrefix(c', guilds[1..], k - 1);
      NewGuildConfigsCons(ids, k);
      var rest := NewGuildConfigs(ids[1..][..k - 1]);
      calc {
        Provision(c, guilds).guilds;
        Provision(c', guilds[1..]).guilds;
        c'.guilds + rest;
        c.guilds + ([NewGuildConfig(ids[0])] + rest);
        c.guilds + NewGuildConfigs(ids[..k]);
      }
    }
  }

  /**
   * The member scans the guild scan runs are those of the guilds before its
   * stop point and of the guild it stops at.
   */
  lemma {:induction false} ProvisionScansThroughStop(c: Configs, guilds: seq<GuildView>, k: nat)
    requires StopsAt(GuildIds(c.guilds), ViewIds(guilds), k)
    ensures Provision(c, guilds).users == ScanEach(c.users, guilds[..if k < |guilds| then k + 1 else k])
    decreases guilds
  {
    if guilds != [] {
      var ids := ViewIds(guilds);
      var users := ScanMembers(c.users, guilds[0].members);
      var stop := if k < |guilds| then k + 1 else k;
      assert guilds[..stop][0] == guilds[0];
      if guilds[0].id in GuildIds(c.guilds) {
        assert k == 0;
        assert guilds[..1][1..] == [];
      } else {
        assert k != 0;
        var c' := Configs(users, c.guilds + [NewGuildConfig(guilds[0].id)]);
        assert GuildIds(c'.guilds) == GuildIds(c.guilds) + [ids[0]];
        StopsAtTail(GuildIds(c.guilds), ids, k);
        assert ViewIds(guilds[1..]) == ids[1..];
        ProvisionScansThroughStop(c', guilds[1..], k - 1);
        assert guilds[..stop][1..] == guilds[1..][..stop - 1];
      }
    }
  }

  lemma {:induction false} ScanMembersExtends(users: seq<UserConfig>, members: seq<UInt64>)
    ensures users <= ScanMembers(users, members)
    ensures members != [] ==> members[0] in UserIds(ScanMembers(users, members))
    decreases members
  {
    if members != [] && members[0] !in UserIds(users) {
      var users' := users + [NewUserConfig(members[0])];
      ScanMembersExtends(users', members[1..]);
      var r := ScanMembers(users, members);
      assert UserIds(users')[|users|] == members[0];
      assert UserIds(r)[|users|] == r[|users|].associatedId;
    }
  }

  /** Provisioning only appends: the old lists are prefixes of the new ones. */
  lemma {:induction false} ProvisionExtends(c: Configs, guilds: seq<GuildView>)
    ensures c.users <= Provision(c, guilds).users
    ensures c.guilds <= Provision(c, guilds).guilds
    decreases guilds
  {
    if guilds != [] {
      ScanMembersExtends(c.users, guilds[0].members);
      var users := ScanMembers(c.users, guilds[0].members);
      if guilds[0].id !in GuildIds(c.guilds) {
        ProvisionExtends(Configs(users, c.guilds + [NewGuildConfig(guilds[0].id)]), guilds[1..]);
      }
    }
  }

  /** A user is appended only when no config has its id, so ids stay distinct. */
  lemma {:induction false} ScanMembersKeepsDistinct(users: seq<UserConfig>, members: seq<UInt64>)
    requires DistinctIds(UserIds(users))
    ensures DistinctIds(UserIds(ScanMembers(users, members)))
    decreases members
  {
    if members != [] && members[0] !in UserIds(users) {
      var users' := users + [NewUserConfig(members[0])];
      assert UserIds(users') == UserIds(users) + [members[0]];
      ScanMembersKeepsDistinct(users', members[1..]);
    }
  }

  /** Provisioning never introduces a duplicate id, in either list. */
  lemma {:induction false} ProvisionKeepsDistinct(c: Configs, guilds: seq<GuildView>)
    requires DistinctIds(UserIds(c.users)) && DistinctIds(GuildIds(c.guilds))
    ensures DistinctIds(UserIds(Provision(c, guilds).users))
    ensures DistinctIds(GuildIds(Provision(c, guilds).guilds))
    decreases guilds
  {
    if guilds != [] {
      ScanMembersKeepsDistinct(c.users, guilds[0].members);
      var users := ScanMembers(c.users, guilds[0].members);
      if guilds[0].id !in GuildIds(c.guilds) {
        var guilds' := c.guilds + [NewGuildConfig(guilds[0].id)];
        assert GuildIds(guilds') == GuildIds(c.guilds) + [guilds[0].id];
        ProvisionKeepsDistinct(Configs(users, guilds'), guilds[1..]);
      }
    }
  }

  lemma PrefixKeepsUserIds(a: seq<UserConfig>, b: seq<UserConfig>, id: UInt64)
    requires a <= b && id in UserIds(a)
    ensures id in UserIds(b)
  {
    var i :| 0 <= i < |a| && UserIds(a)[i] == id;
    assert UserIds(b)[i] == id;
  }

  lemma PrefixKeepsGuildIds(a: seq<GuildConfig>, b: seq<GuildConfig>, id: UInt64)
    requires a <= b && id in GuildIds(a)
    ensures id in GuildIds(b)
  {
    var i :| 0 <= i < |a| && GuildIds(a)[i] == id;
    assert GuildIds(b)[i] == id;
  }

  /**
   * A second pass over the same guilds changes nothing: its first guild's
   * first member and the guild itself now have configs, so both scans stop
   * at once.
   */
  lemma ProvisionIdempotent(c: Configs, guilds: seq<GuildView>)
    ensures Provision(Provision(c, guilds), guilds) == Provision(c, guilds)
  {
    if guilds != [] {
      var c1 := Provision(c, guilds);
      var g := guilds[0];
      var users := ScanMembers(c.users, g.members);
      ScanMembersExtends(c.users, g.members);
      if g.id !in GuildIds(c.guilds) {
        var c' := Configs(users, c.guilds + [NewGuildConfig(g.id)]);
        ProvisionExtends(c', guilds[1..]);
        assert GuildIds(c'.guilds)[|c.guilds|] == g.id;
        PrefixKeepsGuildIds(c'.guilds, c1.guilds, g.id);
      }
      assert users <= c1.users;
      if g.members != [] {
        PrefixKeepsUserIds(users, c1.users, g.members[0]);
      }
    }
  }
}
