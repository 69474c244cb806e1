/**
 * The texts the engine produces: the level-up announcement (main.py:300) and
 * the leaderboard reply (main.py:317-332).
 */
module Notices {
  import opened Decimal

  const Party := "\U{1F389}"
  const Trophy := "\U{1F3C6}"
  const Closing := "! " + Party

  /** The text after the mention in an announcement. */
  function AnnouncementTail(level: int): string {
    "> leveled up to level " + Integer(level) + Closing
  }

  /** "<@{user_id}> leveled up to level {level}! 🎉" */
  function Announcement(user: nat, level: int): (text: string)
    ensures |text| > 2 && text[..2] == "<@"
  {
    "<@" + Natural(user) + AnnouncementTail(level)
  }

  /** Distinct (user, level) pairs give distinct announcements: the text names both. */
  lemma AnnouncementIdentifies(u1: nat, l1: int, u2: nat, l2: int)
    requires Announcement(u1, l1) == Announcement(u2, l2)
    ensures u1 == u2 && l1 == l2
  {
    var n1, n2 := Natural(u1), Natural(u2);
    var t1, t2 := AnnouncementTail(l1), AnnouncementTail(l2);
    DropFront("<@", n1, t1, n2, t2);
    DigitRunSplits(n1, t1, n2, t2);
    NaturalInjective(u1, u2);
    DropAround("> leveled up to level ", Integer(l1), Integer(l2), Closing);
    IntegerInjective(l1, l2);
  }

  lemma DropFront(h: string, a: string, x: string, b: string, y: string)
    requires h + a + x == h + b + y
    ensures a + x == b + y
  {
    assert a + x == (h + a + x)[|h|..];
    assert b + y == (h + b + y)[|h|..];
  }

  lemma DropAround(h: string, a: string, b: string, t: string)
    requires h + a + t == h + b + t
    ensures a == b
  {
    assert a == (h + a + t)[|h|..|h| + |a|];
    assert b == (h + b + t)[|h|..|h| + |b|];
  }

  /** One leaderboard row as the query returns it: a user name and a level. */
  datatype Row = Row(name: string, level: int)

  /** "**{idx}.** `{user_name}` | **Level:** {level}\n" */
  function Line(rank: nat, row: Row): (line: string)
    ensures |line| > 2 && line[..2] == "**" && line[|line| - 1] == '\n'
  {
    "**" + Natural(rank) + ".** `" + row.name + "` | **Level:** " + Integer(row.level) + "\n"
  }

  /** The rankings field: one line per row, numbered from 1 in order. */
  function Rankings(rows: seq<Row>): (text: string)
    ensures text == "" <==> rows == []
    ensures rows != [] ==> text[|text| - 1] == '\n'
    decreases |rows|
  {
    if rows == [] then "" else Rankings(rows[..|rows| - 1]) + Line(|rows|, rows[|rows| - 1])
  }

  /** The reply to /leaderboard: a notice when there is no user, an embed otherwise. */
  datatype LeaderboardReply =
    | NoUsers(notice: string)
    | Board(title: string, description: string, rankings: string)

  const NoUsersNotice := "No users found in the leaderboard."
  const BoardTitle := Trophy + " Top 25 Leaderboard"
  const BoardDescription := "Here are the top 25 users by Level!"

  /** Builds the reply, the rankings text by appending one line per row. */
  method RenderLeaderboard(rows: seq<Row>) returns (reply: LeaderboardReply)
    ensures rows == [] <==> reply.NoUsers?
    ensures reply.NoUsers? ==> reply.notice == NoUsersNotice
    ensures reply.Board? ==> reply == Board(BoardTitle, BoardDescription, Rankings(rows))
  {
    if rows == [] {
      return NoUsers(NoUsersNotice);
    }
    var text := "";
    for i := 0 to |rows|
      invariant text == Rankings(rows[..i])
    {
      assert rows[..i + 1][..i] == rows[..i];
      text := text + Line(i + 1, rows[i]);
    }
    assert rows[..|rows|] == rows;
    reply := Board(BoardTitle, BoardDescription, text);
  }

  function Newlines(s: string): nat
    decreases |s|
  {
    if s == [] then 0 else Newlines(s[..|s| - 1]) + (if s[|s| - 1] == '\n' then 1 else 0)
  }

  lemma {:induction false} NewlinesAppend(a: string, b: string)
    ensures Newlines(a + b) == Newlines(a) + Newlines(b)
    decreases |b|
  {
    if b == [] {
      assert a + b == a;
    } else {
      assert (a + b)[..|a + b| - 1] == a + b[..|b| - 1];
      NewlinesAppend(a, b[..|b| - 1]);
    }
  }

  predicate NoNewline(s: string) {
    forall i :: 0 <= i < |s| ==> s[i] != '\n'
  }

  lemma {:induction false} NoNewlineCounts(s: string)
    requires NoNewline(s)
    ensures Newlines(s) == 0
    decreases |s|
  {
    if s != [] {
      NoNewlineCounts(s[..|s| - 1]);
    }
  }

  /** Each line of the rankings ends in the only newline it holds, when names hold none. */
  lemma {:induction false} LineHasOneNewline(rank: nat, row: Row)
    requires NoNewline(row.name)
    ensures Newlines(Line(rank, row)) == 1
  {
    var front := "**" + Natural(rank) + ".** `" + row.name + "` | **Level:** " + Integer(row.level);
    assert NoNewline(Integer(row.level));
    assert NoNewline(front);
    assert Line(rank, row) == front + "\n";
    assert (front + "\n")[..|front|] == front;
    NoNewlineCounts(front);
  }

  /** The rankings text has exactly one line per row. */
  lemma {:induction false} RankingsLineCount(rows: seq<Row>)
    requires forall i :: 0 <= i < |rows| ==> NoNewline(rows[i].name)
    ensures Newlines(Rankings(rows)) == |rows|
    decreases |rows|
  {
    if rows != [] {
      var k := |rows| - 1;
      RankingsLineCount(rows[..k]);
      LineHasOneNewline(|rows|, rows[k]);
      NewlinesAppend(Rankings(rows[..k]), Line(|rows|, rows[k]));
    }
  }

  /**
   * The rankings of a prefix of the rows begin the full rankings, so row k
   * (counting from 0) appears with number k + 1 after the rows before it.
   */
  lemma {:induction false} RankingsExtend(rows: seq<Row>, k: nat)
    requires k < |rows|
    ensures Rankings(rows[..k]) + Line(k + 1, rows[k]) <= Rankings(rows)
    decreases |rows|
  {
    var m := |rows| - 1;
    var init := rows[..m];
    assert Rankings(rows) == Rankings(init) + Line(|rows|, rows[m]);
    if k < m {
      assert init[..k] == rows[..k] && init[k] == rows[k];
      RankingsExtend(init, k);
      PrefixExtends(Rankings(rows[..k]) + Line(k + 1, rows[k]), Rankings(init), Line(|rows|, rows[m]));
    } else {
      assert rows[..k] == init;
    }
  }

  lemma PrefixExtends(a: string, b: string, c: string)
    requires a <= b
    ensures a <= b + c
  {
  }
}
