/** The running bot of main.go: the handshake it writes once connected and
    the receive loop that hands each line to the loop body, writing replies
    to the connection and updating the karma store in place. */
module Bot {
  import opened Text
  import opened Karma
  import opened Ranking
  import opened Protocol
  import opened Dispatch

  /** Running: ready for the next line. Panicked: an index ran past the end
      of a line's fields and the process died. Fatal: a save failed and the
      process exited through log.Fatalf. */
  datatype Status = Running | Panicked | Fatal

  /** What a run of the loop leaves behind: the lines written, the store,
      how it stopped and how many input lines it consumed. */
  datatype Trace = Trace(out: seq<string>, db: Db, status: Status, read: nat)

  /** The loop body of a bot whose configured channel is channel. */
  function BodyFor(channel: string): (string, Db, seq<string>) -> Outcome {
    (line, db, order) => Step(line, channel, db, order)
  }

  /** The checked loop body, SafeStep, for the same bot. */
  function SafeBodyFor(channel: string): (string, Db, seq<string>) -> Outcome {
    (line, db, order) => SafeStep(line, channel, db, order)
  }

  /** The receive loop over the lines the server sends, with body as its
      loop body: each line's iteration order and whether its save succeeds
      are taken from orders and saves. It stops at the first panic or failed
      save, and otherwise when the input runs out. */
  function Run(lines: seq<string>, body: (string, Db, seq<string>) -> Outcome, db: Db,
               orders: seq<seq<string>>, saves: seq<bool>): (t: Trace)
    requires |orders| == |lines| && |saves| == |lines|
    ensures t.read <= |lines|
    ensures t.status == Running ==> t.read == |lines|
    decreases |lines|
  {
    if lines == [] then Trace([], db, Running, 0)
    else
      var o := body(lines[0], db, orders[0]);
      if o.Fault? then Trace([], db, Panicked, 1)
      else if o.persist && !saves[0] then Trace(o.out, o.db, Fatal, 1)
      else
        var t := Run(lines[1..], body, o.db, orders[1..], saves[1..]);
        Trace(o.out + t.out, t.db, t.status, 1 + t.read)
  }

  /** A run over a single line is that line's step. */
  lemma RunOne(line: string, body: (string, Db, seq<string>) -> Outcome, db: Db,
               order: seq<string>, save: bool)
    ensures var o := body(line, db, order);
      Run([line], body, db, [order], [save])
        == if o.Fault? then Trace([], db, Panicked, 1)
           else Trace(o.out, o.db, if o.persist && !save then Fatal else Running, 1)
  {
    assert [line][1..] == [] && [order][1..] == [] && [save][1..] == [];
  }

  lemma SnocParts<T>(s: seq<T>, x: T)
    requires s != []
    ensures (s + [x])[0] == s[0] && (s + [x])[1..] == s[1..] + [x]
  {
  }

  /** One more line after a run that is still going: the run over the longer
      input is the old run followed by that line's step. */
  lemma {:induction false} RunSnoc(lines: seq<string>, body: (string, Db, seq<string>) -> Outcome, db: Db,
                                   orders: seq<seq<string>>, saves: seq<bool>,
                                   line: string, order: seq<string>, save: bool)
    requires |orders| == |lines| && |saves| == |lines|
    requires Run(lines, body, db, orders, saves).status == Running
    ensures var t := Run(lines, body, db, orders, saves);
      var o := body(line, t.db, order);
      Run(lines + [line], body, db, orders + [order], saves + [save])
        == if o.Fault? then Trace(t.out, t.db, Panicked, |lines| + 1)
           else Trace(t.out + o.out, o.db, if o.persist && !save then Fatal else Running, |lines| + 1)
    decreases |lines|
  {
    if lines == [] {
      RunOne(line, body, db, order, save);
    } else {
      SnocParts(lines, line);
      SnocParts(orders, order);
      SnocParts(saves, save);
      var o := body(lines[0], db, orders[0]);
      RunSnoc(lines[1..], body, o.db, orders[1..], saves[1..], line, order, save);
    }
  }

  /** Each line's order is a listing of the store as it stands when that
      line is read; the orders of lines after the one that stops the run are
      never used and not constrained. */
  predicate Listed(lines: seq<string>, body: (string, Db, seq<string>) -> Outcome, db: Db,
                   orders: seq<seq<string>>, saves: seq<bool>)
    requires |orders| == |lines| && |saves| == |lines|
    decreases |lines|
  {
    || lines == []
    || (&& IsListing(orders[0], db)
        && var o := body(lines[0], db, orders[0]);
           || o.Fault?
           || (o.persist && !saves[0])
           || Listed(lines[1..], body, o.db, orders[1..], saves[1..]))
  }

  /** One more line after a run that is still going, read with a listing of
      the store the run has left, keeps every order a listing. */
  lemma {:induction false} ListedSnoc(lines: seq<string>, body: (string, Db, seq<string>) -> Outcome, db: Db,
                                      orders: seq<seq<string>>, saves: seq<bool>,
                                      line: string, order: seq<string>, save: bool)
    requires |orders| == |lines| && |saves| == |lines|
    requires Run(lines, body, db, orders, saves).status == Running
    requires Listed(lines, body, db, orders, saves)
    requires IsListing(order, Run(lines, body, db, orders, saves).db)
    ensures Listed(lines + [line], body, db, orders + [order], saves + [save])
    decreases |lines|
  {
    if lines == [] {
      assert [line][1..] == [] && [order][1..] == [] && [save][1..] == [];
    } else {
      SnocParts(lines, line);
      SnocParts(orders, order);
      SnocParts(saves, save);
      var o := body(lines[0], db, orders[0]);
      ListedSnoc(lines[1..], body, o.db, orders[1..], saves[1..], line, order, save);
    }
  }

  /** One iteration of the receive loop extends the run by that line: the
      bridge between Serve's loop invariant and Run. */
  lemma ServeStep(lines: seq<string>, saves: seq<bool>, read: nat, body: (string, Db, seq<string>) -> Outcome,
                  db0: Db, orders: seq<seq<string>>, order: seq<string>, o: Outcome, status: Status,
                  sent0: seq<string>, before: seq<string>, after: seq<string>, dbBefore: Db, dbAfter: Db)
    requires read < |lines| && |saves| == |lines| && |orders| == read
    requires |sent0| <= |before| && before[..|sent0|] == sent0
    requires Run(lines[..read], body, db0, orders, saves[..read]) == Trace(before[|sent0|..], dbBefore, Running, read)
    requires Listed(lines[..read], body, db0, orders, saves[..read]) && IsListing(order, dbBefore)
    requires o == body(lines[read], dbBefore, order)
    requires o.Fault? ==> status == Panicked && dbAfter == dbBefore && after == before
    requires o.Next? ==>
      after == before + o.out && dbAfter == o.db && status == (if o.persist && !saves[read] then Fatal else Running)
    ensures |sent0| <= |after| && after[..|sent0|] == sent0
    ensures Run(lines[..read + 1], body, db0, orders + [order], saves[..read + 1])
         == Trace(after[|sent0|..], dbAfter, status, read + 1)
    ensures Listed(lines[..read + 1], body, db0, orders + [order], saves[..read + 1])
  {
    RunSnoc(lines[..read], body, db0, orders, saves[..read], lines[read], order, saves[read]);
    ListedSnoc(lines[..read], body, db0, orders, saves[..read], lines[read], order, saves[read]);
    assert lines[..read + 1] == lines[..read] + [lines[read]];
    assert saves[..read + 1] == saves[..read] + [saves[read]];
    if o.Next? {
      assert after[|sent0|..] == before[|sent0|..] + o.out;
    }
  }

  /** When every line has all the fields the loop body indexes, the bot never
      panics; it stops early only on a failed save. */
  lemma {:induction false} WellFormedRunNeverPanics(lines: seq<string>, channel: string, db: Db,
                                                    orders: seq<seq<string>>, saves: seq<bool>)
    requires |orders| == |lines| && |saves| == |lines|
    requires forall i :: 0 <= i < |lines| ==> IndexesInRange(Fields(lines[i]))
    ensures Run(lines, BodyFor(channel), db, orders, saves).status != Panicked
    decreases |lines|
  {
    if lines != [] {
      var o := BodyFor(channel)(lines[0], db, orders[0]);
      if !(o.persist && !saves[0]) {
        WellFormedRunNeverPanics(lines[1..], channel, o.db, orders[1..], saves[1..]);
      }
    }
  }

  /** With every save succeeding, a run stops only by panicking or at the end
      of its input, never through log.Fatalf. */
  lemma {:induction false} SavedRunNeverFatal(lines: seq<string>, channel: string, db: Db,
                                              orders: seq<seq<string>>, saves: seq<bool>)
    requires |orders| == |lines| && |saves| == |lines|
    requires forall i :: 0 <= i < |saves| ==> saves[i]
    ensures Run(lines, BodyFor(channel), db, orders, saves).status != Fatal
    decreases |lines|
  {
    if lines != [] {
      var o := BodyFor(channel)(lines[0], db, orders[0]);
      if o.Next? {
        SavedRunNeverFatal(lines[1..], channel, o.db, orders[1..], saves[1..]);
      }
    }
  }

  /** With the checked loop body no input line can crash the bot, whatever
      it holds. */
  lemma {:induction false} SafeRunNeverPanics(lines: seq<string>, channel: string, db: Db,
                                              orders: seq<seq<string>>, saves: seq<bool>)
    requires |orders| == |lines| && |saves| == |lines|
    ensures Run(lines, SafeBodyFor(channel), db, orders, saves).status != Panicked
    decreases |lines|
  {
    if lines != [] {
      var o := SafeBodyFor(channel)(lines[0], db, orders[0]);
      if !(o.persist && !saves[0]) {
        SafeRunNeverPanics(lines[1..], channel, o.db, orders[1..], saves[1..]);
      }
    }
  }

  /** Some order in which a range over db may visit its handles. */
  ghost function SomeListing(db: Db): (order: seq<string>)
    ensures IsListing(order, db)
    decreases |db|
  {
    if |db| == 0 then []
    else
      var k :| k in db;
      [k] + SomeListing(db - {k})
  }

  class Bot {
    const nick: string
    const user: string
    const channel: string
    /** The karma store. */
    var db: Db
    /** Every line written to the connection so far, in order. */
    var sent: seq<string>

    /** Connected: the handshake has been written and the store loaded. */
    constructor (nick: string, user: string, channel: string, db: Db)
      ensures this.nick == nick && this.user == user && this.channel == channel
      ensures this.db == db
      ensures sent == Handshake(nick, user, channel)
    {
      this.nick := nick;
      this.user := user;
      this.channel := channel;
      this.db := db;
      sent := Handshake(nick, user, channel);
    }

    /** One pass of the receive loop. saveOk says whether k.save succeeds if
        it is called. order is the order in which "topten" ranged over the
        store, when it did. */
    method Receive(line: string, saveOk: bool) returns (status: Status, ghost order: seq<string>)
      modifies this
      ensures IsListing(order, old(db))
      ensures match Step(line, channel, old(db), order)
        case Fault => status == Panicked && db == old(db) && sent == old(sent)
        case Next(out, db', persist) =>
          && sent == old(sent) + out && db == db'
          && status == (if persist && !saveOk then Fatal else Running)
    {
      order := SomeListing(db);
      var f := Fields(line);
      if |f| < 1 {
        return Panicked, order;
      }
      if f[0] == "PING" {
        if |f| < 2 {
          return Panicked, order;
        }
        sent := sent + [Pong(f[1])];
        return Running, order;
      }
      if |f| < 2 || (f[1] == "PRIVMSG" && |f| < 4) {
        return Panicked, order;
      }
      if f[1] == "PRIVMSG" && f[3] == BotToken {
        status, order := ReceiveCommand(f);
      } else {
        status := ReceiveVote(line, f, saveOk);
      }
    }

    /** A line addressed to the bot, dispatched on its fifth field. */
    method ReceiveCommand(f: seq<string>) returns (status: Status, ghost order: seq<string>)
      modifies this
      ensures IsListing(order, old(db))
      ensures match Command(f, channel, old(db), order)
        case Fault => status == Panicked && db == old(db) && sent == old(sent)
        case Next(out, db', persist) => sent == old(sent) + out && db == db' && status == Running
    {
      order := SomeListing(db);
      if |f| < 5 {
        return Panicked, order;
      }
      if f[4] == "help" {
        sent := sent + HelpLines(channel);
      }
      if f[4] == "version" {
        sent := sent + [VersionLine(channel)];
      }
      if f[4] == "query" {
        if |f| < 6 {
          return Panicked, order;
        }
        var n := Query(db, f[5]);
        sent := sent + [ScoreLine(channel, f[5], n)];
      }
      if f[4] == "topten" {
        order := WriteTopTen();
      }
      return Running, order;
    }

    /** Any other line: a vote when the whole line ends in "++" or "--",
        followed by a save whose failure is fatal. */
    method ReceiveVote(line: string, f: seq<string>, saveOk: bool) returns (status: Status)
      requires |f| >= 2
      modifies this
      ensures var o := Vote(line, f, channel, old(db));
        && sent == old(sent) + o.out && db == o.db
        && status == (if o.persist && !saveOk then Fatal else Running)
    {
      if !HasSuffix(line, "++") && !HasSuffix(line, "--") {
        return Running;
      }
      var handle := Trim(f[|f| - 1], HandleCutset);
      var total: int;
      if HasSuffix(line, "++") {
        db, total := Increment(db, handle).0, Increment(db, handle).1;
      } else {
        db, total := Decrement(db, handle).0, Decrement(db, handle).1;
      }
      sent := sent + [ChangeLine(channel, handle, total)];
      if !saveOk {
        return Fatal;
      }
      return Running;
    }

    /** The "topten" branch: collect and sort the store's pairs, then write
        one score line per pair. order is the iteration order that yields
        the ranking written. */
    method WriteTopTen() returns (ghost order: seq<string>)
      modifies this
      ensures db == old(db)
      ensures IsListing(order, db)
      ensures sent == old(sent) + TopTenLines(channel, Ranked(db, order))
    {
      var p := TopTenPairs(db);
      WriteScores(p);
      RankingReachable(db, p[..]);
      order := Keys(p[..]);
    }

    /** Writes one score line per pair, in the array's order. */
    method WriteScores(p: array<Pair>)
      modifies this
      ensures db == old(db)
      ensures sent == old(sent) + TopTenLines(channel, p[..])
    {
      var i := 0;
      while i < p.Length
        invariant 0 <= i <= p.Length
        invariant db == old(db)
        invariant sent == old(sent) + TopTenLines(channel, p[..i])
      {
        assert p[..i + 1] == p[..i] + [p[i]];
        TopTenLinesSnoc(channel, p[..i], p[i]);
        sent := sent + [ScoreLine(channel, p[i].key, p[i].value)];
        i := i + 1;
      }
      assert p[..i] == p[..];
    }

    /** The receive loop: every line is handed to Receive until one panics
        or fails to save, or the input ends. */
    method Serve(lines: seq<string>, saves: seq<bool>)
      returns (status: Status, read: nat, ghost orders: seq<seq<string>>)
      requires |saves| == |lines|
      modifies this
      ensures |orders| == read && read <= |lines|
      ensures |old(sent)| <= |sent| && sent[..|old(sent)|] == old(sent)
      ensures Run(lines[..read], BodyFor(channel), old(db), orders, saves[..read])
           == Trace(sent[|old(sent)|..], db, status, read)
      ensures Listed(lines[..read], BodyFor(channel), old(db), orders, saves[..read])
      ensures status == Running ==> read == |lines|
    {
      status, read, orders := Running, 0, [];
      while read < |lines| && status == Running
        invariant read <= |lines| && |orders| == read
        invariant |old(sent)| <= |sent| && sent[..|old(sent)|] == old(sent)
        invariant Run(lines[..read], BodyFor(channel), old(db), orders, saves[..read])
               == Trace(sent[|old(sent)|..], db, status, read)
        invariant Listed(lines[..read], BodyFor(channel), old(db), orders, saves[..read])
        decreases |lines| - read
      {
        ghost var before := sent;
        ghost var dbBefore := db;
        ghost var order;
        status, order := Receive(lines[read], saves[read]);
        ServeStep(lines, saves, read, BodyFor(channel), old(db), orders, order,
                  Step(lines[read], channel, dbBefore, order), status,
                  old(sent), before, sent, dbBefore, db);
        orders := orders + [order];
        read := read + 1;
      }
    }
  }
}
