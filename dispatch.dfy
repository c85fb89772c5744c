/** One pass of the receive loop in main.go as a pure function: a line (CRLF
    already stripped) and the karma database in, the lines written to the
    connection, the new database and whether a save was requested out. */
module Dispatch {
  import opened Text
  import opened Karma
  import opened Ranking
  import opened Protocol

  /** Fault: the line made the loop index past the end of its fields, a panic
      that ends the process. */
  datatype Outcome = Fault | Next(out: seq<string>, db: Db, persist: bool)

  /** The characters strings.Trim strips from a handle. */
  const HandleCutset: string := ":+-"

  /** The handle of a "foo++" / "bar--" line: its last field, trimmed of
      ':', '+' and '-' at both ends. */
  function Handle(f: seq<string>): (h: string)
    requires |f| > 0
    ensures |h| <= |f[|f| - 1]|
    ensures h == [] || (h[0] !in HandleCutset && h[|h| - 1] !in HandleCutset)
    ensures TrimmedPiece(f[|f| - 1], |f[|f| - 1]| - |TrimLeft(f[|f| - 1], HandleCutset)|, h, HandleCutset)
  {
    TrimSpec(f[|f| - 1], HandleCutset);
    Trim(f[|f| - 1], HandleCutset)
  }

  /** The loop body. order stands for the order in which ranging over the
      database visits its handles, which Go leaves unspecified. The body
      panics exactly when one of its field indexes is out of range; only the
      karma path, never a line addressed to the bot, changes the database,
      and that path writes one line and asks for a save. */
  function Step(line: string, channel: string, db: Db, order: seq<string>): (r: Outcome)
    ensures r.Fault? <==> !IndexesInRange(Fields(line))
    ensures r.Next? && r.db != db ==> r.persist
    ensures r.Next? && r.persist ==> |r.out| == 1 && !IsDirected(Fields(line))
    ensures r.Next? && IsDirected(Fields(line)) ==> r.db == db && !r.persist
  {
    var f := Fields(line);
    if |f| < 1 then Fault
    else if f[0] == "PING" then
      if |f| < 2 then Fault else Next([Pong(f[1])], db, false)
    else if |f| < 2 then Fault
    else if f[1] == "PRIVMSG" && |f| < 4 then Fault
    else if f[1] == "PRIVMSG" && f[3] == BotToken then Command(f, channel, db, order)
    else Vote(line, f, channel, db)
  }

  /** A command addressed to the bot, dispatched on its fifth field: it
      panics when that field, or the handle after "query", is missing, and
      otherwise only writes. */
  function Command(f: seq<string>, channel: string, db: Db, order: seq<string>): (r: Outcome)
    ensures r.Fault? <==> |f| < 5 || (f[4] == "query" && |f| < 6)
    ensures r.Next? ==> r.db == db && !r.persist
    ensures r.Next? && f[4] !in {"help", "version", "query", "topten"} ==> r.out == []
  {
    if |f| < 5 then Fault
    else if f[4] == "help" then Next(HelpLines(channel), db, false)
    else if f[4] == "version" then Next([VersionLine(channel)], db, false)
    else if f[4] == "query" then
      if |f| < 6 then Fault else Next([ScoreLine(channel, f[5], Query(db, f[5]))], db, false)
    else if f[4] == "topten" then Next(TopTenLines(channel, Ranked(db, order)), db, false)
    else Next([], db, false)
  }

  /** Any other line: a karma vote when the whole line ends in "++" or "--".
      (The source's extra test for fewer than two fields cannot fire here:
      the line has already been indexed at its second field.) */
  function Vote(line: string, f: seq<string>, channel: string, db: Db): (r: Outcome)
    requires |f| >= 2
    ensures r.Next?
    ensures r.persist <==> HasSuffix(line, "++") || HasSuffix(line, "--")
    ensures !r.persist ==> r.out == [] && r.db == db
    ensures r.persist ==> |r.out| == 1 && Handle(f) in r.db
    ensures r.persist ==> forall x :: x != Handle(f) ==> Query(r.db, x) == Query(db, x)
    ensures r.persist ==>
      Query(r.db, Handle(f)) == Query(db, Handle(f)) + (if HasSuffix(line, "++") then 1 else -1)
  {
    if !HasSuffix(line, "++") && !HasSuffix(line, "--") then Next([], db, false)
    else
      var h := Handle(f);
      var r := if HasSuffix(line, "++") then Increment(db, h) else Decrement(db, h);
      Next([ChangeLine(channel, h, r.1)], r.0, true)
  }

  /** The conditions under which every index the loop body uses is in range. */
  predicate IndexesInRange(f: seq<string>) {
    && |f| >= 2
    && (f[0] != "PING" && f[1] == "PRIVMSG" ==> |f| >= 4)
    && (f[0] != "PING" && f[1] == "PRIVMSG" && |f| >= 4 && f[3] == BotToken ==> |f| >= 5)
    && (f[0] != "PING" && f[1] == "PRIVMSG" && |f| >= 5 && f[3] == BotToken && f[4] == "query" ==>
          |f| >= 6)
  }

  /** A line is addressed to the bot when its second field is PRIVMSG and its
      fourth is the literal ":shelbot". */
  predicate IsDirected(f: seq<string>) {
    |f| >= 4 && f[0] != "PING" && f[1] == "PRIVMSG" && f[3] == BotToken
  }

  /** A PING is answered by exactly one PONG echoing its second field, and
      nothing else happens. */
  lemma PingAnswered(line: string, channel: string, db: Db, order: seq<string>)
    requires |Fields(line)| >= 2 && Fields(line)[0] == "PING"
    ensures Step(line, channel, db, order) == Next([Pong(Fields(line)[1])], db, false)
  {
  }

  /** What each directed command writes; any other command writes nothing. */
  lemma DirectedReplies(line: string, channel: string, db: Db, order: seq<string>)
    requires IsDirected(Fields(line)) && |Fields(line)| >= 5
    ensures var f, o := Fields(line), Step(line, channel, db, order);
      && (f[4] == "help" ==> o.Next? && |o.out| == 2 && o.out == HelpLines(channel))
      && (f[4] == "version" ==> o == Next([Privmsg(channel, "Shelbot version 1.3.0.")], db, false))
      && (f[4] == "query" && |f| >= 6 ==>
            o == Next([Privmsg(channel, "Karma for " + f[5] + " is " + IntToDecimal(Query(db, f[5])) + ".")], db, false))
      && (f[4] !in {"help", "version", "query", "topten"} ==> o == Next([], db, false))
  {
    assert "Shelbot version " + Version + "." == "Shelbot version 1.3.0.";
  }

  /** "topten" writes one line per entry of the database, with no cut at ten,
      and the entries come as a valid ranking: a permutation sorted
      non-increasing by score. */
  lemma TopTenReplies(line: string, channel: string, db: Db, order: seq<string>)
    requires IsDirected(Fields(line)) && |Fields(line)| >= 5 && Fields(line)[4] == "topten"
    requires IsListing(order, db)
    ensures var o := Step(line, channel, db, order);
      && o.Next? && o.db == db && !o.persist && |o.out| == |db|
      && exists r :: IsRankingOf(r, db) && o.out == TopTenLines(channel, r)
  {
    RankedIsRanking(db, order);
  }

  /** Conversely every valid ranking is the reply for some iteration order. */
  lemma TopTenAnyRanking(line: string, channel: string, db: Db, r: seq<Pair>)
    requires IsDirected(Fields(line)) && |Fields(line)| >= 5 && Fields(line)[4] == "topten"
    requires IsRankingOf(r, db)
    ensures exists order ::
      IsListing(order, db) && Step(line, channel, db, order) == Next(TopTenLines(channel, r), db, false)
  {
    RankingReachable(db, r);
    var order := Keys(r);
    assert Step(line, channel, db, order) == Next(TopTenLines(channel, r), db, false);
  }

  /** The karma path: taken for any line that is not a PING and not addressed
      to the bot, whose whole text ends in "++" or "--". It changes exactly
      one score by one, writes one reply to the configured channel, then
      asks for a save; any other such line does nothing. */
  lemma VoteEffect(line: string, channel: string, db: Db, order: seq<string>)
    requires IndexesInRange(Fields(line))
    requires Fields(line)[0] != "PING" && !IsDirected(Fields(line))
    ensures var f, o := Fields(line), Step(line, channel, db, order);
      var up, down := HasSuffix(line, "++"), HasSuffix(line, "--");
      && o.Next?
      && (o.persist <==> up || down)
      && (!up && !down ==> o.out == [] && o.db == db)
      && ((up || down) ==>
            var h := Handle(f);
            var n := Query(db, h) + (if up then 1 else -1);
            && o.db == db[h := n]
            && o.out == [Privmsg(channel, "Karma for " + h + " now " + IntToDecimal(n))]
            && (forall x :: x != h ==> Query(o.db, x) == Query(db, x)))
  {
    VoteRoute(line, channel, db, order);
    VoteResult(line, Fields(line), channel, db);
  }

  lemma VoteRoute(line: string, channel: string, db: Db, order: seq<string>)
    requires IndexesInRange(Fields(line))
    requires Fields(line)[0] != "PING" && !IsDirected(Fields(line))
    ensures Step(line, channel, db, order) == Vote(line, Fields(line), channel, db)
  {
  }

  lemma VoteResult(line: string, f: seq<string>, channel: string, db: Db)
    requires |f| >= 2
    ensures var up, down := HasSuffix(line, "++"), HasSuffix(line, "--");
      (up || down) ==>
        var h := Handle(f);
        var n := Query(db, h) + (if up then 1 else -1);
        Vote(line, f, channel, db) == Next([Privmsg(channel, "Karma for " + h + " now " + IntToDecimal(n))], db[h := n], true)
  {
  }

  /** Handle's TrimmedPiece clause unfolded, for callers that need its
      parts: the handle has no ':', '+' or '-' at either end and is a piece
      of the last field with only those around it; it may be empty ("foo ++"
      votes for ""). */
  lemma HandleShape(f: seq<string>)
    requires |f| > 0
    ensures var h, w := Handle(f), f[|f| - 1];
      && (h == [] || (h[0] !in HandleCutset && h[|h| - 1] !in HandleCutset))
      && var lo := |w| - |TrimLeft(w, HandleCutset)|;
      && lo + |h| <= |w| && w[lo..lo + |h|] == h
      && (forall i :: 0 <= i < lo ==> w[i] in HandleCutset)
      && (forall i :: lo + |h| <= i < |w| ==> w[i] in HandleCutset)
  {
    TrimSpec(f[|f| - 1], HandleCutset);
  }

  /** Handles in the store never hold a line break. */
  predicate CleanKeys(db: Db) {
    forall k :: k in db ==> NoLineBreak(k)
  }

  /** Everything the loop body writes is one protocol line each, as long as
      the configured channel and the store's handles hold no line break; the
      handles it adds come from fields, so the store stays that way. */
  lemma StepWritesFrames(line: string, channel: string, db: Db, order: seq<string>)
    requires NoLineBreak(channel) && CleanKeys(db)
    ensures var o := Step(line, channel, db, order);
      o.Next? ==> (forall i :: 0 <= i < |o.out| ==> IsFrame(o.out[i])) && CleanKeys(o.db)
  {
    var f := Fields(line);
    if IndexesInRange(f) {
      if f[0] == "PING" {
        WordHasNoLineBreak(f[1]);
        assert Step(line, channel, db, order) == Next([Pong(f[1])], db, false);
      } else if IsDirected(f) {
        assert Step(line, channel, db, order) == Command(f, channel, db, order);
        CommandWritesFrames(f, channel, db, order);
      } else {
        VoteRoute(line, channel, db, order);
        VoteWritesFrames(line, f, channel, db);
      }
    }
  }

  lemma CommandWritesFrames(f: seq<string>, channel: string, db: Db, order: seq<string>)
    requires forall i :: 0 <= i < |f| ==> IsWord(f[i])
    requires NoLineBreak(channel) && CleanKeys(db)
    ensures var o := Command(f, channel, db, order);
      o.Next? ==> forall i :: 0 <= i < |o.out| ==> IsFrame(o.out[i])
  {
    if |f| >= 6 && f[4] == "query" {
      WordHasNoLineBreak(f[5]);
    } else if |f| >= 5 && f[4] == "topten" {
      RankedWritesFrames(channel, db, order);
    }
  }

  lemma RankedWritesFrames(channel: string, db: Db, order: seq<string>)
    requires NoLineBreak(channel) && CleanKeys(db)
    ensures var out := TopTenLines(channel, Ranked(db, order));
      forall i :: 0 <= i < |out| ==> IsFrame(out[i])
  {
    var r := Ranked(db, order);
    forall i | 0 <= i < |r| ensures IsFrame(ScoreLine(channel, r[i].key, r[i].value)) {
      assert r[i] in r;
    }
  }

  lemma VoteWritesFrames(line: string, f: seq<string>, channel: string, db: Db)
    requires |f| >= 2 && IsWord(f[|f| - 1])
    requires NoLineBreak(channel) && CleanKeys(db)
    ensures var o := Vote(line, f, channel, db);
      (forall i :: 0 <= i < |o.out| ==> IsFrame(o.out[i])) && CleanKeys(o.db)
  {
    var h := Handle(f);
    HandleHasNoLineBreak(f);
    if HasSuffix(line, "++") || HasSuffix(line, "--") {
      VoteResult(line, f, channel, db);
      var n := Query(db, h) + (if HasSuffix(line, "++") then 1 else -1);
      assert ChangeLine(channel, h, n) == Privmsg(channel, "Karma for " + h + " now " + IntToDecimal(n));
    }
  }

  /** A handle is a piece of a field, so it holds no line break. */
  lemma HandleHasNoLineBreak(f: seq<string>)
    requires |f| > 0 && IsWord(f[|f| - 1])
    ensures NoLineBreak(Handle(f))
  {
    var w := f[|f| - 1];
    HandleShape(f);
    WordHasNoLineBreak(w);
    var lo := |w| - |TrimLeft(w, HandleCutset)|;
    assert forall i :: 0 <= i < |Handle(f)| ==> Handle(f)[i] == w[lo + i];
  }

  /** The loop body with its field counts checked before each index: a line
      too short for the shape it starts to match is ignored instead of
      crashing the bot. */
  function SafeStep(line: string, channel: string, db: Db, order: seq<string>): (r: Outcome)
    ensures r.Next?
  {
    var f := Fields(line);
    if |f| < 2 then Next([], db, false)
    else if f[0] == "PING" then Next([Pong(f[1])], db, false)
    else if f[1] == "PRIVMSG" && |f| < 4 then Next([], db, false)
    else if f[1] == "PRIVMSG" && f[3] == BotToken then
      if |f| < 5 || (f[4] == "query" && |f| < 6) then Next([], db, false)
      else Command(f, channel, db, order)
    else Vote(line, f, channel, db)
  }

  /** On every line the unchecked loop body survives, the checked one does
      the same thing; on the others it changes nothing. */
  lemma SafeStepAgrees(line: string, channel: string, db: Db, order: seq<string>)
    ensures !Step(line, channel, db, order).Fault? ==>
      SafeStep(line, channel, db, order) == Step(line, channel, db, order)
    ensures Step(line, channel, db, order).Fault? ==>
      SafeStep(line, channel, db, order) == Next([], db, false)
  {
    var f := Fields(line);
    if |f| >= 4 && f[0] != "PING" && f[1] == "PRIVMSG" && f[3] == BotToken {
      assert SafeStep(line, channel, db, order) == if |f| < 5 || (f[4] == "query" && |f| < 6)
        then Next([], db, false) else Command(f, channel, db, order);
    }
  }
}
