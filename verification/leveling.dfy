/**
 * The levelling engine's state and its operations: the three tables the bot
 * keeps (users, per-guild cooldowns, level-up channels), the store helpers of
 * main.py:109-196, the message handler of main.py:253-304 and the leaderboard
 * query of main.py:308-332.
 */
module Leveling {
  import opened Wrappers
  import opened Progression
  import opened Notices

  type UserId = nat
  type GuildId = nat
  type ChannelId = nat

  /** Clock readings in whole milliseconds since the epoch. */
  type Millis = int

  /** The per-guild anti-spam gap between two grants: 10 seconds. */
  const CooldownMillis := 10000

  /** How many users the leaderboard lists. */
  const LeaderboardSize := 25

  /** A row of the users table: the last seen name and the progress. */
  datatype UserRecord = UserRecord(name: string, progress: Progress)

  /** The key of the exp_cooldowns table. */
  datatype CooldownKey = CooldownKey(guild: GuildId, user: UserId)

  /** A row of the level_up_channels table. */
  datatype Subscription = Subscription(guild: GuildId, channel: ChannelId)

  /** What the handler reads of an incoming chat message. */
  datatype Message = Message(authorId: UserId, authorName: string, authorIsBot: bool, guild: Option<GuildId>)

  /** What the platform does with a channel id: no such channel, accepts a send, or rejects it. */
  datatype Reach = Missing | Accepts | Rejects

  /** The result of one announcement attempt. */
  datatype Delivery = Unresolved | Sent(text: string) | Failed(text: string)

  datatype Attempt = Attempt(target: Subscription, delivery: Delivery)

  /** What one message did: nothing, nothing because of the cooldown, or a grant. */
  datatype Outcome = Ignored | OnCooldown | Granted(step: Step, attempts: seq<Attempt>)

  /** The reply of the /add_levelup_channel command once the caller's checks have passed. */
  datatype CommandReply = AlreadySet | Added | AddFailed

  /** A channel the platform cannot find is skipped; a rejected send is caught and logged. */
  function Deliver(reach: Reach, text: string): (d: Delivery)
    ensures d.Unresolved? <==> reach == Missing
    ensures d.Sent? <==> reach == Accepts
    ensures !d.Unresolved? ==> d.text == text
  {
    match reach
    case Missing => Unresolved
    case Accepts => Sent(text)
    case Rejects => Failed(text)
  }

  /** The cooldown rule: no record for the pair, or at least 10 seconds since it. */
  function CanGiveExp(last: Option<Millis>, now: Millis): (ok: bool)
    ensures last.None? ==> ok
    ensures ok && last.Some? ==> last.value < now
  {
    last.None? || now - last.value >= CooldownMillis
  }

  predicate NoDuplicates<T(==)>(s: seq<T>) {
    forall i, j :: 0 <= i < j < |s| ==> s[i] != s[j]
  }

  /** One attempt per subscription, in order, whatever became of the others. */
  predicate FannedOut(attempts: seq<Attempt>, subs: seq<Subscription>, text: string, reach: ChannelId -> Reach) {
    && |attempts| == |subs|
    && forall i :: 0 <= i < |subs| ==> attempts[i] == Attempt(subs[i], Deliver(reach(subs[i].channel), text))
  }

  /** Every subscription, whatever its guild, is the target of some attempt. */
  lemma FanOutCoversEverySubscription(attempts: seq<Attempt>, subs: seq<Subscription>, text: string, reach: ChannelId -> Reach, s: Subscription)
    requires FannedOut(attempts, subs, text, reach)
    requires s in subs
    ensures Attempt(s, Deliver(reach(s.channel), text)) in attempts
  {
  }

  /** Some user of a non-empty set has the highest level in it. */
  lemma {:induction false} HighestExists(users: map<UserId, UserRecord>, s: set<UserId>)
    requires s != {} && s <= users.Keys
    ensures exists u :: u in s && forall v :: v in s ==> users[v].progress.level <= users[u].progress.level
    decreases s
  {
    var x :| x in s;
    if s == {x} {
      assert forall v :: v in s ==> v == x;
    } else {
      HighestExists(users, s - {x});
      var m :| m in s - {x} && forall v :: v in s - {x} ==> users[v].progress.level <= users[m].progress.level;
      if users[m].progress.level < users[x].progress.level {
        assert forall v :: v in s ==> users[v].progress.level <= users[x].progress.level;
      } else {
        assert forall v :: v in s ==> users[v].progress.level <= users[m].progress.level;
      }
    }
  }

  class Store {
    /** users: user_id -> (user_name, level, xp, levelup_xp), one row per user across all guilds. */
    var users: map<UserId, UserRecord>
    /** exp_cooldowns: (guild_id, user_id) -> last_exp_time. */
    var cooldowns: map<CooldownKey, Millis>
    /** level_up_channels: the (guild_id, channel_id) rows, the pair being the primary key. */
    var channels: seq<Subscription>

    /** The primary key of level_up_channels holds. */
    ghost predicate Valid()
      reads this
    {
      NoDuplicates(channels)
    }

    /** Every stored user is in a standing the engine can reach. */
    ghost predicate AllReachable()
      reads this
    {
      forall u :: u in users ==> Reachable(users[u].progress)
    }

    constructor ()
      ensures Valid() && AllReachable()
      ensures users == map[] && cooldowns == map[] && channels == []
    {
      users, cooldowns, channels := map[], map[], [];
    }

    /** get_user: the stored (level, xp, levelup_xp), or None for an unseen user. */
    function GetUser(user: UserId): (r: Option<Progress>)
      reads this
      ensures r.Some? <==> user in users
      ensures r.Some? ==> r.value == users[user].progress
    {
      if user in users then Some(users[user].progress) else None
    }

    /** add_or_update_user: overwrites the row of an existing user or inserts a new one. */
    method AddOrUpdateUser(user: UserId, name: string, p: Progress)
      modifies this
      ensures users == old(users)[user := UserRecord(name, p)]
      ensures cooldowns == old(cooldowns) && channels == old(channels)
      ensures GetUser(user) == Some(p)
      ensures forall v :: v != user ==> GetUser(v) == old(GetUser(v))
    {
      users := users[user := UserRecord(name, p)];
    }

    /** get_last_exp_time: the pair's last grant time, or None when it never had one. */
    function GetLastExpTime(guild: GuildId, user: UserId): (r: Option<Millis>)
      reads this
      ensures r.Some? <==> CooldownKey(guild, user) in cooldowns
      ensures r.Some? ==> r.value == cooldowns[CooldownKey(guild, user)]
    {
      var key := CooldownKey(guild, user);
      if key in cooldowns then Some(cooldowns[key]) else None
    }

    /** set_last_exp_time: overwrites or inserts the pair's grant time; no other pair changes. */
    method SetLastExpTime(guild: GuildId, user: UserId, time: Millis)
      modifies this
      ensures cooldowns == old(cooldowns)[CooldownKey(guild, user) := time]
      ensures users == old(users) && channels == old(channels)
      ensures GetLastExpTime(guild, user) == Some(time)
      ensures forall g: GuildId, u: UserId :: (g, u) != (guild, user) ==> GetLastExpTime(g, u) == old(GetLastExpTime(g, u))
    {
      cooldowns := cooldowns[CooldownKey(guild, user) := time];
    }

    /** get_level_up_channels: the channel ids subscribed in one guild. */
    method GetLevelUpChannels(guild: GuildId) returns (ids: seq<ChannelId>)
      requires Valid()
      ensures forall c :: c in ids <==> Subscription(guild, c) in channels
      ensures NoDuplicates(ids)
    {
      ids := [];
      for i := 0 to |channels|
        invariant forall c :: c in ids <==> Subscription(guild, c) in channels[..i]
        invariant NoDuplicates(ids)
      {
        assert channels[..i + 1] == channels[..i] + [channels[i]];
        if channels[i].guild == guild {
          ids := ids + [channels[i].channel];
        }
      }
      assert channels[..|channels|] == channels;
    }

    /** add_level_up_channel: inserts the pair, or reports false when the key already exists. */
    method AddLevelUpChannel(guild: GuildId, channel: ChannelId) returns (added: bool)
      requires Valid()
      modifies this
      ensures Valid()
      ensures added <==> Subscription(guild, channel) !in old(channels)
      ensures channels == if added then old(channels) + [Subscription(guild, channel)] else old(channels)
      ensures users == old(users) && cooldowns == old(cooldowns)
    {
      var sub := Subscription(guild, channel);
      added := sub !in channels;
      if added {
        channels := channels + [sub];
      }
    }

    /**
     * The registry part of /add_levelup_channel: a channel already listed for
     * the guild is refused before the insert is tried.
     */
    method AddLevelUpChannelCommand(guild: GuildId, channel: ChannelId) returns (reply: CommandReply)
      requires Valid()
      modifies this
      ensures Valid()
      ensures reply != AddFailed
      ensures reply == Added <==> Subscription(guild, channel) !in old(channels)
      ensures channels == if reply == Added then old(channels) + [Subscription(guild, channel)] else old(channels)
      ensures users == old(users) && cooldowns == old(cooldowns)
    {
      var existing := GetLevelUpChannels(guild);
      if channel in existing {
        return AlreadySet;
      }
      var ok := AddLevelUpChannel(guild, channel);
      reply := if ok then Added else AddFailed;
    }

    /** The level-up fan-out: one attempt per subscription of every guild. */
    method AnnounceLevelUp(user: UserId, level: int, reach: ChannelId -> Reach) returns (attempts: seq<Attempt>)
      ensures FannedOut(attempts, channels, Announcement(user, level), reach)
    {
      var text := Announcement(user, level);
      attempts := [];
      for i := 0 to |channels|
        invariant |attempts| == i
        invariant forall j :: 0 <= j < i ==> attempts[j] == Attempt(channels[j], Deliver(reach(channels[j].channel), text))
      {
        attempts := attempts + [Attempt(channels[i], Deliver(reach(channels[i].channel), text))];
      }
    }

    /**
     * on_message: ignore bots and messages outside a guild; apply the cooldown
     * rule, recording the grant time first; then grant, store the result and,
     * on a level-up, announce it everywhere. The clock reading and the rolled
     * amount are parameters, and so is the platform's handling of each channel.
     */
    method HandleMessage(msg: Message, now: Millis, amount: int, reach: ChannelId -> Reach) returns (outcome: Outcome)
      requires Valid()
      requires MinGrant <= amount <= MaxGrant
      modifies this
      ensures Valid() && channels == old(channels)
      ensures msg.authorIsBot || msg.guild.None? ==>
        outcome == Ignored && users == old(users) && cooldowns == old(cooldowns)
      ensures !msg.authorIsBot && msg.guild.Some? ==>
        var key := CooldownKey(msg.guild.value, msg.authorId);
        if CanGiveExp(old(GetLastExpTime(msg.guild.value, msg.authorId)), now) then
          && cooldowns == old(cooldowns)[key := now]
          && outcome.Granted?
          && outcome.step == Grant(old(GetUser(msg.authorId)), amount)
          && users == old(users)[msg.authorId := UserRecord(msg.authorName, outcome.step.progress)]
          && (outcome.step.leveledUp ==>
                FannedOut(outcome.attempts, channels, Announcement(msg.authorId, outcome.step.progress.level), reach))
          && (!outcome.step.leveledUp ==> outcome.attempts == [])
        else
          outcome == OnCooldown && users == old(users) && cooldowns == old(cooldowns)
      ensures forall k :: k in old(cooldowns) ==> k in cooldowns && old(cooldowns)[k] <= cooldowns[k]
      ensures old(AllReachable()) ==> AllReachable()
    {
      if msg.authorIsBot || msg.guild.None? {
        return Ignored;
      }
      var guild, user := msg.guild.value, msg.authorId;
      var last := GetLastExpTime(guild, user);
      if !CanGiveExp(last, now) {
        return OnCooldown;
      }
      SetLastExpTime(guild, user, now);
      var stored := GetUser(user);
      var step := Grant(stored, amount);
      if AllReachable() {
        GrantKeepsReachable(stored, amount);
      }
      AddOrUpdateUser(user, msg.authorName, step.progress);
      var attempts: seq<Attempt> := [];
      if step.leveledUp {
        attempts := AnnounceLevelUp(user, step.progress.level, reach);
      }
      outcome := Granted(step, attempts);
    }

    /**
     * The leaderboard query: at most 25 users, highest level first, and no user
     * left out has a higher level than one listed. Ties are broken arbitrarily.
     */
    method TopByLevel() returns (ids: seq<UserId>, rows: seq<Row>)
      ensures |ids| == if |users| < LeaderboardSize then |users| else LeaderboardSize
      ensures NoDuplicates(ids)
      ensures forall i :: 0 <= i < |ids| ==> ids[i] in users
      ensures |rows| == |ids|
      ensures forall i :: 0 <= i < |ids| ==> rows[i] == Row(users[ids[i]].name, users[ids[i]].progress.level)
      ensures forall i, j :: 0 <= i < j < |rows| ==> rows[j].level <= rows[i].level
      ensures forall u, i :: u in users && u !in ids && 0 <= i < |rows| ==> users[u].progress.level <= rows[i].level
    {
      ids, rows := [], [];
      var rest := users.Keys;
      while |ids| < LeaderboardSize && rest != {}
        invariant |ids| <= LeaderboardSize
        invariant rest <= users.Keys
        invariant |ids| + |rest| == |users|
        invariant forall u :: u in users ==> (u in rest <==> u !in ids)
        invariant NoDuplicates(ids)
        invariant forall i :: 0 <= i < |ids| ==> ids[i] in users
        invariant |rows| == |ids|
        invariant forall i :: 0 <= i < |ids| ==> rows[i] == Row(users[ids[i]].name, users[ids[i]].progress.level)
        invariant forall i, j :: 0 <= i < j < |rows| ==> rows[j].level <= rows[i].level
        invariant forall u, i :: u in rest && 0 <= i < |rows| ==> users[u].progress.level <= rows[i].level
        decreases rest
      {
        HighestExists(users, rest);
        var u :| u in rest && forall v :: v in rest ==> users[v].progress.level <= users[u].progress.level;
        ids := ids + [u];
        rows := rows + [Row(users[u].name, users[u].progress.level)];
        rest := rest - {u};
      }
    }

    /** /leaderboard: the top users, their rows, and the reply built from them. */
    method Leaderboard() returns (ids: seq<UserId>, rows: seq<Row>, reply: LeaderboardReply)
      ensures |ids| == if |users| < LeaderboardSize then |users| else LeaderboardSize
      ensures NoDuplicates(ids)
      ensures forall i :: 0 <= i < |ids| ==> ids[i] in users
      ensures |rows| == |ids|
      ensures forall i :: 0 <= i < |ids| ==> rows[i] == Row(users[ids[i]].name, users[ids[i]].progress.level)
      ensures forall i, j :: 0 <= i < j < |rows| ==> rows[j].level <= rows[i].level
      ensures forall u, i :: u in users && u !in ids && 0 <= i < |rows| ==> users[u].progress.level <= rows[i].level
      ensures users == map[] ==> reply == NoUsers(NoUsersNotice)
      ensures users != map[] ==> reply == Board(BoardTitle, BoardDescription, Rankings(rows))
    {
      ids, rows := TopByLevel();
      reply := RenderLeaderboard(rows);
    }
  }

  /** Messages 9.9 s apart in one guild give one grant; 10 s apart, two; another guild is not held back. */
  method CooldownWindowScenario(reach: ChannelId -> Reach)
  {
    var store := new Store();
    var msg := Message(7, "ann", false, Some(1));
    var first := store.HandleMessage(msg, 0, 20, reach);
    assert first.Granted? && first.step == Step(Starting, false);
    var early := store.HandleMessage(msg, 9900, 20, reach);
    assert early == OnCooldown;
    var elsewhere := store.HandleMessage(msg.(guild := Some(2)), 9900, 20, reach);
    assert elsewhere.Granted? && elsewhere.step == Step(Progress(1, 30, 100), false);
    var later := store.HandleMessage(msg, 10000, 20, reach);
    assert later.Granted? && later.step == Step(Progress(1, 50, 100), false);
    var fromBot := store.HandleMessage(msg.(authorIsBot := true), 50000, 20, reach);
    assert fromBot == Ignored;
  }
}
