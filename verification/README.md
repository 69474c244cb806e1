# Cross-server levelling engine, modelled in Dafny

This project models the experience and levelling engine of a chat bot. For every
message, the bot decides whether the author earns experience. A per-guild cooldown
of 10 seconds gates each grant. The bot then updates the author's global level, xp
and level-up threshold, and on a level-up it announces the new level in every
registered level-up channel of every guild. A leaderboard lists the top 25 users
by level.

Modules:

- `Progression`: the pure integer step on `(level, xp, levelup_xp)` for one grant.
  Its lemmas cover the at-rest invariant, the reachable standings, conservation of
  experience across a level-up, and agreement with a cascading reference definition.
- `Leveling`: class `Store` with the three tables (`users`, `cooldowns`, `channels`).
  It holds the store helpers, the message handler, the fan-out loop and the top-25
  query.
- `Notices`: the announcement text and the leaderboard text, built by a loop.
- `Decimal`: integers written as base-10 text, and the facts that make those texts
  unambiguous.
- `Wrappers`: `Option`, standing for Python's `None`.

Three behaviours of main.py worth knowing:

- A user with no stored row gets `level=1, xp=10, levelup_xp=100`, and the rolled
  amount is not added (main.py:276-277). So a first message with a roll of 20 stores
  xp 10 (the first ensures of `Grant`).
- The starting threshold 100 is not the formula's value for level 1
  (50+100+50 = 200). The formula is used only for levels reached by levelling up.
  `Reachable` records this: threshold 100 at level 1, `50·L² + 100·L + 50` above it.
- Announcements go to every subscription of every guild, not only the guild where
  the message was sent (main.py:295).

Time is an integer count of milliseconds, so the 10-second rule is `now - last >= 10000`.
The rolled amount and the clock reading are parameters of `HandleMessage`. So is the
platform's handling of each channel (`reach`: not found, accepts, rejects).

## Model

| member | source | states |
|---|---|---|
| `Progression.Grant` | main.py:272-289 | An unseen user gets exactly (1, 10, 100), whatever the amount, and never levels up. A stored user levels up iff xp + amount >= levelup_xp. Without a level-up only xp changes, to xp + amount. With one, the level rises by exactly one, the excess over the old threshold is kept, and the threshold becomes 50·(L+1)² + 100·(L+1) + 50. |
| `Progression.Threshold` | main.py:286 | The level-up threshold equals 50·(L+1)², so it is never negative. |
| `Progression.AtRestPreserved` | main.py:273-287 | A stored user with level >= 1 and 0 <= xp < levelup_xp still has 0 <= xp < levelup_xp after any grant of 1..20. |
| `Progression.ThresholdAbove` | main.py:286 | The threshold of every level reached by levelling up is at least 450, above any single roll. |
| `Progression.GrantKeepsReachable` | main.py:276-287 | Grants of 1..20 keep every user in a reachable standing: level >= 1, at rest, threshold 100 at level 1 and the formula above it. |
| `Progression.GrantAddsAmount` | main.py:279-287 | For a stored user, total experience (the thresholds of completed levels plus xp) grows by exactly the amount, so the carry-over loses nothing. |
| `Progression.SingleStepSuffices` | main.py:283-287 | For reachable users and rolls of 1..20, the single non-cascading level-up equals the cascading reference `Settle`. |
| `Progression.Settle` | main.py:283-287 | The cascading reference ends at rest and never lowers the level. A standing already at rest is returned unchanged. |
| `Progression.LargeGrantDoesNotCascade` | main.py:283-287 | A grant of 1000 at (1, 95, 100) stops at level 2 with 995 xp, which is not at rest: only one level step per grant. |
| `Progression.CrossingLevelOne` | main.py:279-287 | (1, 95, 100) with a roll of 10 gives (2, 5, 450) and a level-up. |
| `Decimal.Natural` | main.py:300 | The text of a number is a non-empty run of digits with no leading zero. |
| `Decimal.ParseNaturalInverts` | main.py:300 | Reading the digits back gives the number, so distinct numbers have distinct texts. |
| `Decimal.Integer` | main.py:300 | The text of an integer is non-empty and starts with a minus sign exactly when the integer is negative; a non-negative one is all digits. |
| `Decimal.IntegerInjective` | main.py:329 | Distinct integers have distinct texts, a minus sign marking negatives. |
| `Decimal.DigitRunSplits` | main.py:300 | A run of digits followed by a non-digit splits in only one way. |
| `Notices.Announcement` | main.py:300 | The announcement starts with the mention `<@`. |
| `Notices.AnnouncementIdentifies` | main.py:300 | Equal announcements name the same user and the same level. |
| `Notices.Line` | main.py:329 | A leaderboard line starts with the bold marker `**` before its number and ends in a newline. |
| `Notices.Rankings` | main.py:327-329 | The rankings text is empty exactly when there are no rows, and otherwise ends in a newline. |
| `Notices.RenderLeaderboard` | main.py:317-331 | No rows gives the "No users found" notice. Otherwise the reply is the embed whose rankings are the rows' lines numbered from 1. |
| `Notices.LineHasOneNewline` | main.py:329 | Each leaderboard line holds exactly one newline, when the name holds none. |
| `Notices.RankingsLineCount` | main.py:327-329 | The rankings text has exactly one line per row. |
| `Notices.RankingsExtend` | main.py:328-329 | Row k (from 0) appears as line number k + 1, after the lines of the rows before it. |
| `Leveling.CanGiveExp` | main.py:264-269 | A pair with no cooldown record may always be granted, and a grant to a pair with a record comes strictly after it, so no grant is backdated. |
| `Leveling.Deliver` | main.py:297-302 | A channel the platform cannot find gets no send. A send is made exactly when the channel is found, and it succeeds or fails with the announcement text. |
| `Leveling.FanOutCoversEverySubscription` | main.py:295-302 | After a fan-out, every subscription of every guild has an attempt with its own delivery result. |
| `Leveling.Store.constructor` | main.py:65-66 | The tables start empty. |
| `Leveling.Store.GetUser` | main.py:132-140 | Returns the stored (level, xp, levelup_xp) iff the user has a row, and None otherwise. |
| `Leveling.Store.AddOrUpdateUser` | main.py:143-163 | Upsert: the user's row becomes exactly (name, progress), and reading it back returns what was written. Every other user and every other table is unchanged. |
| `Leveling.Store.GetLastExpTime` | main.py:166-175 | Returns the pair's last grant time iff it has a record. |
| `Leveling.Store.SetLastExpTime` | main.py:178-196 | Upsert of one (guild, user) record. Every other pair and every other table is unchanged. |
| `Leveling.Store.GetLevelUpChannels` | main.py:109-115 | Returns exactly the channel ids paired with the guild, each once. |
| `Leveling.Store.AddLevelUpChannel` | main.py:118-129 | Returns true and appends the pair iff it is absent. Otherwise returns false and leaves the table unchanged. The primary key stays unique. |
| `Leveling.Store.AddLevelUpChannelCommand` | main.py:352-363 | A channel already listed for the guild is refused. Otherwise it is added. The "failed to add" reply cannot occur when commands run one at a time. |
| `Leveling.Store.AnnounceLevelUp` | main.py:291-302 | Makes one attempt per subscription record, in order, with the text `<@{user}> leveled up to level {level}! 🎉`. A missing channel or a rejected send does not stop the rest. |
| `Leveling.Store.HandleMessage` | main.py:253-289 | Bot or guild-less messages change nothing. Otherwise a grant happens iff there is no cooldown record or at least 10 s have passed. A grant sets only that pair's record to `now`, stores `Grant(old row, amount)` with the new name, and announces iff a level-up fired. Cooldown records never go backwards, and reachable standings stay reachable. |
| `Leveling.Store.TopByLevel` | main.py:313 | Returns min(25, number of users) distinct users with their names and levels, in non-increasing level order. No user left out has a higher level than one listed. |
| `Leveling.Store.Leaderboard` | main.py:309-332 | Selects min(25, number of users) distinct stored users, each row their name and level, in non-increasing level order, with no user left out ranking higher. With no users the reply is the "No users found" notice. Otherwise it is the embed with the fixed title and description and the rankings text of those rows. |

## Left out

- The chat gateway, bot start-up, command sync, the status rotation loop and the
  `/invite`, `/bot_invite` and `/sync` commands (main.py:15-16, 80-106, 335-380) are
  platform I/O.
- `bot.process_commands` (main.py:306) hands the message to the command framework.
  It is not part of the engine.
- The ORM engine, sessions, commits and table creation (main.py:22-77) are replaced
  by in-memory maps and a sequence. Storage failures are not modelled, so every
  helper succeeds. The duplicate-key error of `add_level_up_channel` becomes "pair
  already present".
- Message logging (main.py:198-249) is left out: the timezone conversion, attachment
  URLs, the invite cache and `log_message_to_db` are foreign libraries and network
  calls.
- The owner and permission checks of `/add_levelup_channel` (main.py:342-350) are
  platform calls. Only the registry effect is modelled.
- `time.time()` returns a float. The model takes whole milliseconds as a parameter.
- `random.randint(1, 20)` is a parameter whose range is a precondition.
- The 32-bit `Integer` columns are not modelled: levels and xp are unbounded integers.
  The standings they reach stay small.
- Concurrent handlers are left out: the model processes one message at a time, so the
  races between overlapping handlers are not captured.
- The rows of `level_up_channels` are kept in insertion order. The database returns
  them in an unspecified order.
- `reach` gives one result per channel id. Two subscriptions of the same channel under
  different guilds therefore get the same delivery result.
- The failure messages printed for rejected sends, the embed's colour and inline
  flag, and the `ephemeral=True` flag of the "No users found" notice (main.py:318)
  are not modelled.
- Leveling.Store.HandleMessage: does not state that the cooldown record is written
  before the user row, because with no storage failures the order of the two writes
  cannot be observed.
