/** Whole protocol lines run through the loop body: the cases the bot is
    built for, and the short lines that crash it. */
module Scenarios {
  import opened Text
  import opened Karma
  import opened Ranking
  import opened Protocol
  import opened Dispatch
  import opened Bot

  /** Words joined by single blanks tokenise back to those words. */
  lemma FieldsOfUnwords(ws: seq<string>)
    requires forall i :: 0 <= i < |ws| ==> IsWord(ws[i])
    ensures Fields(Unwords(ws)) == ws
  {
    FieldsUnwords(ws, "");
    assert Unwords(ws) + "" == Unwords(ws);
  }

  /** A line of words ends with its last word. */
  lemma {:induction false} UnwordsEndsWithLast(ws: seq<string>)
    requires ws != []
    ensures HasSuffix(Unwords(ws), ws[|ws| - 1])
    decreases |ws|
  {
    if |ws| > 1 {
      UnwordsEndsWithLast(ws[1..]);
      var u := Unwords(ws[1..]);
      var last := ws[|ws| - 1];
      assert ws[1..][|ws[1..]| - 1] == last;
      var s := ws[0] + " " + u;
      assert s[|s| - |last|..] == u[|u| - |last|..];
    }
  }

  lemma SuffixOfSuffix(s: string, t: string, suffix: string)
    requires HasSuffix(s, t) && HasSuffix(t, suffix)
    ensures HasSuffix(s, suffix)
  {
    assert s[|s| - |suffix|..] == t[|t| - |suffix|..];
  }

  lemma VoteWord(handle: string, mark: string)
    requires IsWord(handle) && (mark == "++" || mark == "--")
    ensures IsWord(":" + handle + mark) && ":" + handle + mark != BotToken
    ensures HasSuffix(":" + handle + mark, mark)
  {
    var last := ":" + handle + mark;
    assert forall i :: 1 <= i < 1 + |handle| ==> last[i] == handle[i - 1];
    assert forall i :: 1 + |handle| <= i < |last| ==> last[i] == mark[i - 1 - |handle|];
    assert last[|last| - 1] == mark[1];
    assert last[|last| - 2..] == mark;
  }

  /** The text facts about a vote line that the loop body tests. */
  lemma VoteLine(line: string, ws: seq<string>, handle: string, up: bool)
    requires |ws| == 4 && IsWord(ws[0]) && IsWord(ws[1]) && IsWord(ws[2]) && IsWord(handle)
    requires handle[0] !in HandleCutset && handle[|handle| - 1] !in HandleCutset
    requires ws[3] == ":" + handle + (if up then "++" else "--")
    requires line == Unwords(ws)
    ensures Fields(line) == ws && ws[3] != BotToken
    ensures HasSuffix(line, "++") == up && HasSuffix(line, "--") == !up
    ensures Handle(ws) == handle
  {
    var mark := if up then "++" else "--";
    VoteWord(handle, mark);
    FieldsOfUnwords(ws);
    UnwordsEndsWithLast(ws);
    SuffixOfSuffix(line, ws[3], mark);
    if up {
      assert line[|line| - 1] == '+';
    } else {
      assert line[|line| - 1] == '-';
    }
    TrimExact(":", handle, mark, HandleCutset);
  }

  /** Words joined by blanks, then two more words, each after a run of any
      white space: the runs split fields just as single blanks do. */
  lemma SpacedFields(ws: seq<string>, b: string, last: string, sp1: string, sp2: string)
    requires ws != [] && forall i :: 0 <= i < |ws| ==> IsWord(ws[i])
    requires IsWord(b) && IsWord(last)
    requires sp1 != [] && AllSpace(sp1) && sp2 != [] && AllSpace(sp2)
    ensures Fields(Unwords(ws) + sp1 + b + sp2 + last) == ws + [b, last]
  {
    FieldsOfWordThenSpace(last, "");
    assert last + "" == last;
    FieldsOfWordThenSpaces(b, sp2, last);
    var tail := sp1 + (b + sp2 + last);
    assert tail[0] == sp1[0];
    FieldsUnwordsThen(ws, tail);
    FieldsOfSpaceThen(sp1, b + sp2 + last);
    assert Unwords(ws) + sp1 + b + sp2 + last == Unwords(ws) + tail;
    assert [b] + [last] == [b, last];
  }

  /** Runs of white space split fields like single blanks do: in
      "<sender> PRIVMSG <target> :<a>  <b>  <handle>++" the handle is still
      that of the last field. */
  lemma SpacedVote(line: string, sender: string, target: string, a: string, b: string, handle: string,
                   sp1: string, sp2: string)
    requires IsWord(sender) && IsWord(target) && IsWord(a) && IsWord(b) && IsWord(handle)
    requires handle[0] !in HandleCutset && handle[|handle| - 1] !in HandleCutset
    requires sp1 != [] && AllSpace(sp1) && sp2 != [] && AllSpace(sp2)
    requires line == Unwords([sender, "PRIVMSG", target, ":" + a]) + sp1 + b + sp2 + handle + "++"
    ensures Fields(line) == [sender, "PRIVMSG", target, ":" + a, b, handle + "++"]
    ensures Handle(Fields(line)) == handle
  {
    var last := handle + "++";
    VoteWord(handle, "++");
    assert IsWord(last) by {
      assert forall i :: 0 <= i < |handle| ==> last[i] == handle[i];
    }
    assert IsWord(":" + a) by {
      assert forall i :: 1 <= i < |a| + 1 ==> (":" + a)[i] == a[i - 1];
    }
    var ws := [sender, "PRIVMSG", target, ":" + a];
    assert IsWord("PRIVMSG");
    SpacedFields(ws, b, last, sp1, sp2);
    assert line == Unwords(ws) + sp1 + b + sp2 + last;
    assert ws + [b, last] == [sender, "PRIVMSG", target, ":" + a, b, last];
    TrimExact("", handle, "++", HandleCutset);
    assert "" + handle + "++" == last;
  }

  /** "<sender> PRIVMSG <target> :alice++" (or "--"), from any sender to any
      target, moves alice's score by one, writes one reply to the configured
      channel and asks for a save. */
  lemma ChatVote(sender: string, target: string, handle: string, up: bool,
                 channel: string, db: Db, order: seq<string>)
    requires IsWord(sender) && IsWord(target) && IsWord(handle) && sender != "PING"
    requires handle[0] !in HandleCutset && handle[|handle| - 1] !in HandleCutset
    ensures var line := Unwords([sender, "PRIVMSG", target, ":" + handle + (if up then "++" else "--")]);
      var n := Query(db, handle) + (if up then 1 else -1);
      Step(line, channel, db, order) == Next([ChangeLine(channel, handle, n)], db[handle := n], true)
  {
    var ws := [sender, "PRIVMSG", target, ":" + handle + (if up then "++" else "--")];
    var line := Unwords(ws);
    VoteLine(line, ws, handle, up);
    VoteEffect(line, channel, db, order);
  }

  /** A PING line is answered with PONG and its token, as the only write. */
  lemma PingScenario(token: string, channel: string, db: Db, order: seq<string>)
    requires IsWord(token)
    ensures Step(Unwords(["PING", token]), channel, db, order) == Next([Pong(token)], db, false)
  {
    FieldsOfUnwords(["PING", token]);
  }

  function Sample(): Db {
    map["a" := 5, "b" := 9, "c" := 1]
  }

  lemma SampleEntries()
    ensures Entries(Sample()) == {Pair("a", 5), Pair("b", 9), Pair("c", 1)}
  {
    var db := Sample();
    forall p | p in Entries(db) ensures p in {Pair("a", 5), Pair("b", 9), Pair("c", 1)} {
      var k :| k in db && p == Pair(k, db[k]);
    }
    assert "a" in db && db["a"] == 5 && Pair("a", 5) in Entries(db);
    assert "b" in db && db["b"] == 9 && Pair("b", 9) in Entries(db);
    assert "c" in db && db["c"] == 1 && Pair("c", 1) in Entries(db);
  }

  lemma SampleExpected()
    ensures var e := [Pair("b", 9), Pair("a", 5), Pair("c", 1)];
      IsRankingOf(e, Sample()) && NoTies(e)
  {
    var e := [Pair("b", 9), Pair("a", 5), Pair("c", 1)];
    SampleEntries();
    assert multiset(e) == multiset{Pair("b", 9), Pair("a", 5), Pair("c", 1)};
    assert multiset({Pair("a", 5), Pair("b", 9), Pair("c", 1)}) == multiset{Pair("b", 9), Pair("a", 5), Pair("c", 1)};
  }

  /** The scores {a: 5, b: 9, c: 1} rank as b, a, c whatever order the map
      is ranged over. */
  lemma SampleRanking(order: seq<string>)
    requires IsListing(order, Sample())
    ensures Ranked(Sample(), order) == [Pair("b", 9), Pair("a", 5), Pair("c", 1)]
  {
    RankedIsRanking(Sample(), order);
    SampleExpected();
    RankingUnique([Pair("b", 9), Pair("a", 5), Pair("c", 1)], Ranked(Sample(), order));
  }

  lemma TopTenLine(line: string, channel: string, db: Db, order: seq<string>)
    requires IsDirected(Fields(line)) && |Fields(line)| >= 5 && Fields(line)[4] == "topten"
    ensures Step(line, channel, db, order) == Next(TopTenLines(channel, Ranked(db, order)), db, false)
  {
  }

  lemma SampleLines(channel: string)
    ensures TopTenLines(channel, [Pair("b", 9), Pair("a", 5), Pair("c", 1)])
        == [ScoreLine(channel, "b", 9), ScoreLine(channel, "a", 5), ScoreLine(channel, "c", 1)]
  {
  }

  lemma TopTenSampleLine(line: string, channel: string, order: seq<string>)
    requires |Fields(line)| == 5 && Fields(line)[0] != "PING" && Fields(line)[1] == "PRIVMSG"
    requires Fields(line)[3] == ":shelbot" && Fields(line)[4] == "topten"
    requires IsListing(order, Sample())
    ensures Step(line, channel, Sample(), order)
        == Next([ScoreLine(channel, "b", 9), ScoreLine(channel, "a", 5), ScoreLine(channel, "c", 1)],
                Sample(), false)
  {
    SampleRanking(order);
    SampleLines(channel);
    TopTenLine(line, channel, Sample(), order);
  }

  /** With scores {a: 5, b: 9, c: 1}, "topten" answers b, a, c in that order
      whatever order the map is ranged over. */
  lemma TopTenScenario(sender: string, target: string, channel: string, order: seq<string>)
    requires IsWord(sender) && IsWord(target) && sender != "PING"
    requires IsListing(order, Sample())
    ensures var line := Unwords([sender, "PRIVMSG", target, ":shelbot", "topten"]);
      Step(line, channel, Sample(), order)
        == Next([ScoreLine(channel, "b", 9), ScoreLine(channel, "a", 5), ScoreLine(channel, "c", 1)],
                Sample(), false)
  {
    var ws := [sender, "PRIVMSG", target, ":shelbot", "topten"];
    FieldsOfUnwords(ws);
    TopTenSampleLine(Unwords(ws), channel, order);
  }

  /** Served by the receive loop, the same line writes those three lines and
      nothing else: the order the loop reports for it is a listing of the
      store, so no other reply can be derived. */
  lemma ServedTopTen(sender: string, target: string, channel: string, orders: seq<seq<string>>)
    requires IsWord(sender) && IsWord(target) && sender != "PING"
    requires |orders| == 1
    requires Listed([Unwords([sender, "PRIVMSG", target, ":shelbot", "topten"])], BodyFor(channel),
                    Sample(), orders, [true])
    ensures Run([Unwords([sender, "PRIVMSG", target, ":shelbot", "topten"])], BodyFor(channel),
                Sample(), orders, [true])
         == Trace([ScoreLine(channel, "b", 9), ScoreLine(channel, "a", 5), ScoreLine(channel, "c", 1)],
                  Sample(), Running, 1)
  {
    var line := Unwords([sender, "PRIVMSG", target, ":shelbot", "topten"]);
    assert IsListing(orders[0], Sample());
    TopTenScenario(sender, target, channel, orders[0]);
    assert orders == [orders[0]];
    RunOne(line, BodyFor(channel), Sample(), orders[0], true);
  }

  /** "shelbot query a b" answers for a alone: only the sixth field is read. */
  lemma QueryReadsOneHandle(sender: string, target: string, a: string, b: string,
                            channel: string, db: Db, order: seq<string>)
    requires IsWord(sender) && IsWord(target) && IsWord(a) && IsWord(b) && sender != "PING"
    ensures var line := Unwords([sender, "PRIVMSG", target, ":shelbot", "query", a, b]);
      Step(line, channel, db, order) == Next([ScoreLine(channel, a, Query(db, a))], db, false)
  {
    var f := [sender, "PRIVMSG", target, ":shelbot", "query", a, b];
    var line := Unwords(f);
    FieldsOfUnwords(f);
    assert IsDirected(Fields(line)) && Fields(line)[4] == "query" && Fields(line)[5] == a;
    DirectedReplies(line, channel, db, order);
  }

  /** Saying just "shelbot" in the channel crashes the bot: the loop body
      reads a fifth field that is not there. "shelbot query" with no handle
      does the same with the sixth. */
  lemma ShortDirectedLinesFault(sender: string, target: string, channel: string, db: Db,
                                order: seq<string>)
    requires IsWord(sender) && IsWord(target) && sender != "PING"
    ensures Step(Unwords([sender, "PRIVMSG", target, ":shelbot"]), channel, db, order) == Fault
    ensures Step(Unwords([sender, "PRIVMSG", target, ":shelbot", "query"]), channel, db, order) == Fault
    ensures SafeStep(Unwords([sender, "PRIVMSG", target, ":shelbot"]), channel, db, order)
         == Next([], db, false)
  {
    FieldsOfUnwords([sender, "PRIVMSG", target, ":shelbot"]);
    FieldsOfUnwords([sender, "PRIVMSG", target, ":shelbot", "query"]);
  }
}
