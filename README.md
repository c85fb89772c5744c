# shelbot's receive loop, modelled and proved in Dafny

shelbot is an IRC karma bot. It connects to a server, writes the USER,
NICK and JOIN handshake plus a greeting to its channel, and then reads the
server's lines one at a time. For each line it does one of four things:

- it answers `PING` with `PONG`;
- it answers commands addressed to it (`:shelbot help`, `version`,
  `query <handle>`, `topten`);
- it counts `foo++` / `bar--` votes in the karma store, replies with the
  new score and saves the store;
- otherwise it does nothing.

The model covers all of `main.go`'s logic that is not I/O. The modules are:

- `Text`: the string functions the loop relies on. These are
  `strings.Fields` with the full `unicode.IsSpace` set, `strings.HasSuffix`,
  `strings.Trim` with its two halves, and `%d` formatting of an `int`.
- `Karma`: the karma store as a `map<string, int>` with query, increment and
  decrement.
- `Ranking`: `Pair` and `PairList`'s `Less` and `Swap`, and the "topten"
  collection and sort. There is a pure reference version (`Collect`,
  `SortDesc`, `Ranked`). There is also an imperative version on an `array`
  (`CollectPairs`, `SortDescending`, `TopTenPairs`), proved against the
  same specification.
- `Protocol`: the lines the bot writes (handshake, PONG, PRIVMSG replies)
  and their CRLF framing.
- `Dispatch`: the loop body as a pure function,
  `Step(line, channel, db, order)`. It returns `Fault` when the Go code
  would panic by indexing past the end of the line's fields. Otherwise it
  returns `Next(out, db', persist)`: the lines written, the new store, and
  whether a save follows.
- `Bot`: the running bot as a class.
  - Its `sent` and `db` fields are updated in place by `Receive`, which is
    one pass of the loop written imperatively.
  - `Serve` is the loop itself.
  - `Receive` is proved equal to `Step`, and `Serve` is proved equal to
    `Run`, the loop written as a function.
- `Scenarios`: whole protocol lines run through `Step`.

Go leaves the order of a `range` over a map unspecified. The model makes it
an explicit parameter, `order`: any listing of the map's keys, each exactly
once. The reference sort is a stable insertion sort of the pairs in that
order. `Ranking.RankingReachable` proves that every sorted permutation of
the entries comes out for some order. So the model fixes no tie-break, just
as `sort.Sort` fixes none.

The model follows what the code does, also where that differs from what
the bot is meant to do:

- A line too short for the shape it starts to match makes the code panic,
  while the bot is meant to ignore such lines. See Findings below.
- The bot's name is matched against the literal `:shelbot`, not the
  configured nickname.
- `query` reads only its first handle, although the bot is meant to answer
  for each handle given.
- `topten` lists every entry; there is no cut at ten.
- There is no `bottomten`.
- The karma path is taken for any line whose whole text ends in `++` or
  `--`, not only for chat messages.

## Model

| member | source | states |
|---|---|---|
| Text.Fields | main.go:104 | every field strings.Fields returns is non-empty and holds no white space; with FieldsOfSpace, FieldsOfSpaceThen, FieldsOfWordThenSpaces and FieldsOfWordThenSpace this fixes the fields of every string: FieldsOfWordThenSpaces covers a word followed by white space, FieldsOfWordThenSpace a word that ends the string |
| Text.FieldsOfWordThenSpace | main.go:104 | a word followed by nothing but white space (or by nothing at all, as the last field of a line whose CRLF is stripped) is the single field |
| Text.FieldsOfSpace | main.go:104 | a line of white space only has no fields |
| Text.FieldsOfSpaceThen | main.go:104 | white space in front of a line never makes a field and never changes the fields after it |
| Text.FieldsOfWordThenSpaces | main.go:104 | a word followed by a run of any white space is the first field, and the rest is split on its own, so runs of blanks split like one blank |
| Text.FieldsUnwordsThen | main.go:104 | words joined by blanks, then white space and anything after, give those words first and then the fields of the rest |
| Text.FieldsUnwords | main.go:104 | tokenising words joined by single blanks, followed by any white space such as a CRLF, gives exactly those words back |
| Text.TrimLeft | main.go:155 | strings.TrimLeft keeps a suffix of its input; every character dropped is in the cutset, and the first character kept is not |
| Text.TrimRight | main.go:155 | strings.TrimRight keeps a prefix of its input; every character dropped is in the cutset, and the last character kept is not |
| Text.TrimSpec | main.go:155 | strings.Trim keeps one contiguous piece of the input with cutset characters all around it and none at either end of the piece |
| Text.TrimmedPieceUnique | main.go:155 | at most one piece of a string has only cutset characters around it and none at its ends, so TrimSpec fixes strings.Trim's result |
| Text.TrimExact | main.go:155 | a piece framed by cutset characters, whose own ends are not cutset, is exactly what strings.Trim returns |
| Text.TrimIdempotent | main.go:155 | trimming a handle a second time changes nothing |
| Text.Trim | main.go:155 | strings.Trim never returns more than its input; TrimSpec says which piece it keeps |
| Text.NatToDecimal | main.go:125 | %d of a natural number is a non-empty run of decimal digits with no leading zero (a lone "0" only for zero), one digit exactly for numbers below ten |
| Text.IntToDecimal | main.go:125 | %d of an int starts with '-' exactly when it is negative, is digits after that, and starts with '0' for a non-negative value only when the value is zero; the digits after any sign have no leading zero, so 0 prints "0" and -5 prints "-5" |
| Text.IntToDecimalRoundTrip | main.go:164 | %d of any int is a sign and digits that read back as that int, so distinct scores print differently |
| Karma.Query | main.go:124 | k.query gives 0 for a handle with no entry and the stored score otherwise |
| Karma.Increment | main.go:157-163 | k.increment returns the old score plus one, adds the handle to the store and leaves every other score unchanged |
| Karma.Decrement | main.go:159-163 | k.decrement returns the old score minus one, adds the handle to the store and leaves every other score unchanged |
| Karma.VotesNet | main.go:157-163 | after any interleaving of n increments and m decrements of one handle, its score has moved by n - m and no other score has moved |
| Karma.DecrementUndoesIncrement | main.go:157-163 | a decrement after an increment restores every score, leaving at most a zero entry |
| Ranking.IsSortedReverse | main.go:37-39 | sorting sort.Reverse of a PairList by its Less (each element not Less than its predecessor) means exactly non-increasing by score |
| Ranking.Insert | main.go:140 | inserting a pair into a list sorted by descending score keeps it sorted and adds exactly that pair |
| Ranking.SortDesc | main.go:140 | the reference sort returns a permutation of its input sorted by descending score |
| Ranking.Collect | main.go:135-138 | ranging over the map collects at most one pair per handle visited, and every pair is an entry of the store with its stored score |
| Ranking.Ranked | main.go:131-140 | the topten list is sorted by descending score, is a permutation of the collected pairs, and holds only entries of the store |
| Ranking.CollectEntries | main.go:131-138 | ranging over distinct handles collects, exactly once each, the entries of those handles that are in the store |
| Ranking.RankedIsRanking | main.go:130-140 | the topten list is a permutation of the store's entries, sorted by descending score, with one pair per handle |
| Ranking.EntriesSize | main.go:131 | the store has as many entries as handles, so the preallocated PairList is filled exactly |
| Ranking.SortDescKeepsSorted | main.go:140 | sorting a list already in descending order leaves it unchanged |
| Ranking.RankingReachable | main.go:135-140 | every sorted permutation of the entries is produced by some iteration order of the map, so no tie-break is fixed |
| Ranking.RankingUnique | main.go:140 | when no two scores tie, there is only one sorted permutation of the entries |
| Ranking.CollectPairs | main.go:131-138 | the loop fills a fresh array of len(db) pairs holding each entry of the store exactly once |
| Ranking.Swap | main.go:38 | PairList.Swap exchanges two elements and changes nothing else |
| Ranking.SortDescending | main.go:140 | sort.Sort(sort.Reverse(p)) leaves the array sorted by descending score and a permutation of what it held |
| Ranking.TopTenPairs | main.go:130-140 | the collected and sorted PairList is a valid topten list for the store |
| Protocol.Handshake | main.go:90-93 | the bot writes four lines once connected (USER, NICK, JOIN and the greeting), each one CRLF-terminated protocol line when the nickname, user name and channel hold no line break |
| Protocol.Privmsg | main.go:126 | a PRIVMSG reply is exactly one CRLF-terminated protocol line if and only if the channel and the text hold no CR or LF |
| Protocol.Pong | main.go:106 | the PONG reply is one protocol line if and only if the echoed token holds no CR or LF |
| Protocol.HelpLines | main.go:113-114 | help writes two lines, each one protocol line if and only if the channel holds no line break |
| Protocol.VersionLine | main.go:119 | the version reply is one protocol line if and only if the channel holds no line break |
| Protocol.ScoreLine | main.go:125-126 | a score reply is one protocol line, for any score, if and only if the channel and the handle hold no line break |
| Protocol.ChangeLine | main.go:164-165 | a karma-change reply is one protocol line, for any score, if and only if the channel and the handle hold no line break |
| Protocol.HandshakeFields | main.go:90-92 | the USER, NICK and JOIN lines carry the nickname, user name and channel as whole fields, as the server tokenises them |
| Protocol.TopTenLines | main.go:142-146 | topten writes one score line per pair, in the order of the sorted list |
| Protocol.TopTenLinesSnoc | main.go:142-146 | writing the line for one more pair appends exactly that pair's line |
| Dispatch.Step | main.go:104-171 | the loop body panics exactly when one of its field indexes is out of range; the store changes only on a step that asks for a save; such a step writes exactly one line and is never a line addressed to the bot; a line addressed to the bot never changes the store or asks for a save |
| Dispatch.Command | main.go:111-149 | a command panics exactly when it has no fifth field, or is "query" with no sixth; otherwise it leaves the store alone, asks for no save, and writes nothing for an unknown command |
| Dispatch.Vote | main.go:151-165 | any other line never panics; it asks for a save exactly when it ends in ++ or --, and then holds the handle in the store, moves its score by +1 or -1 respectively, leaves every other score alone and writes one line; otherwise it writes nothing and leaves the store alone |
| Dispatch.Handle | main.go:155 | the handle is what is left of the last field once every leading and trailing ':', '+' and '-' is removed: a piece of it with only those characters around it and none at its own ends |
| Dispatch.PingAnswered | main.go:105-108 | a PING line gets exactly one PONG echoing its second field, and the store is left alone with no save |
| Dispatch.DirectedReplies | main.go:112-128 | help writes two lines, version writes "Shelbot version 1.3.0.", query writes the score of the sixth field only, and an unknown command writes nothing |
| Dispatch.TopTenReplies | main.go:130-146 | topten writes one line per entry with no cut at ten, and the lines come from a valid ranking |
| Dispatch.TopTenAnyRanking | main.go:130-146 | every valid ranking is the topten reply for some iteration order |
| Dispatch.VoteEffect | main.go:151-166 | a line ending in ++ (or else --) moves the handle's score by one, writes the change line to the configured channel and asks for a save; any other line does nothing |
| Dispatch.HandleShape | main.go:155 | the handle is a piece of the last field, starting where the leading ':', '+' and '-' end, with only those characters before and after it, none at either of its ends, and it may be empty |
| Dispatch.HandleHasNoLineBreak | main.go:155 | a handle is cut from a field, so it holds no CR or LF |
| Dispatch.StepWritesFrames | main.go:104-165 | when the channel and the store's handles hold no line break, every line the loop body writes is exactly one protocol line, and the store it leaves still has no handle with a line break |
| Dispatch.SafeStep | main.go:104-171 | the loop body with its field counts checked never panics |
| Dispatch.SafeStepAgrees | main.go:104-171 | the checked loop body does what the original does on every line the original survives, and ignores the others |
| Bot.Run | main.go:97-101 | the loop consumes every input line unless it stops early |
| Bot.RunOne | main.go:97-171 | a run over one line is that line's step: a panic, a fatal failed save, or the step's writes and store |
| Bot.RunSnoc | main.go:97-171 | one more line extends the run by that line's step |
| Bot.ListedSnoc | main.go:135 | a line read with a listing of the store as the run has left it keeps every line's iteration order a listing of the store of its time |
| Bot.ServeStep | main.go:97-171 | one loop iteration extends the run by the line it reads, and keeps each line's iteration order a listing of the store it ranged over |
| Bot.WellFormedRunNeverPanics | main.go:104-124 | when every line has the fields the loop body reads, the bot never panics |
| Bot.SavedRunNeverFatal | main.go:168-170 | with every save succeeding, the loop never exits through log.Fatalf |
| Bot.SafeRunNeverPanics | main.go:104-124 | with the checked loop body, no input makes the bot crash |
| Bot.Bot.constructor | main.go:90-93 | a new bot has written the handshake and holds the loaded store |
| Bot.Bot.Receive | main.go:104-170 | one loop pass writes what Step writes and leaves the store as Step leaves it; it panics when Step faults, and is fatal when a requested save fails |
| Bot.Bot.ReceiveCommand | main.go:111-149 | a command pass writes the command's replies and leaves the store unchanged |
| Bot.Bot.ReceiveVote | main.go:151-170 | a vote pass updates the store in place, writes the change line, then saves |
| Bot.Bot.WriteTopTen | main.go:130-147 | topten writes the score lines of a valid ranking of the store |
| Bot.Bot.WriteScores | main.go:142-146 | the write loop emits one score line per array element, in order |
| Bot.Bot.Serve | main.go:97-171 | the receive loop's writes, final store and stopping reason are those of Run over the lines it read, where each line's iteration order is a listing of the store as it stood when that line was read |
| Scenarios.ChatVote | main.go:151-166 | "alice++" (or "--") from any sender to any target moves alice's score by one and replies "Karma for alice now n" |
| Scenarios.PingScenario | main.go:105-108 | "PING token" is answered with "PONG token" and nothing else |
| Scenarios.TopTenScenario | main.go:130-146 | with scores a:5, b:9, c:1, topten answers b, a, c in that order, whatever the iteration order |
| Scenarios.ServedTopTen | main.go:130-146 | served by the receive loop over the store a:5, b:9, c:1, a topten line writes the score lines of b, a, c in that order and nothing else |
| Scenarios.SpacedVote | main.go:104-155 | in a vote line whose text has runs of white space between its words, the fields are still the words, and the handle is that of the last one |
| Scenarios.QueryReadsOneHandle | main.go:123-128 | "shelbot query a b" answers for a alone |
| Scenarios.ShortDirectedLinesFault | main.go:111-124 | "shelbot" alone, or "shelbot query" with no handle, crashes the loop body; the checked body ignores such a line |

## Left out

- The signal goroutine (main.go:75-88) is not modelled. It is concurrency and `os.Exit`, with a QUIT line and a final save.
- The following are not modelled: log file setup, flag parsing, the `-v` flag and the home directory lookup (main.go:22-28, 47-61). They are process I/O with no logic.
- `loadConfig`, `bot.connect`, `readKarmaFileJSON` and `k.save` are not part of this model. Their bodies are not in main.go, and they are file and network I/O. A save appears only as the `persist` flag of `Step`. Its outcome is the `saveOk` parameter of `Receive`.
- `log.Println` calls are not modelled; they write only to the log file.
- Write errors: the source ignores the error every `bot.conn.Write` returns (main.go:90-93, 106, 113-165), and so does the model. `sent` holds the lines the bot attempts to write, each taken as written.
- `textproto.ReadLine` framing is not modelled. Each input line is taken with its CRLF already stripped. A read error ends the loop; in the model that is the end of the `lines` sequence given to `Serve`.
- Karma.Query, Karma.Increment, Karma.Decrement: the store's own code is not part of this model. It is taken to treat an absent handle as score 0 and to return the new score.
- Ranking.SortDescending: Go's pdqsort is replaced by insertion sort with adjacent swaps. Only sortedness and permutation are stated, which is all `sort.Sort` promises.
- Text.Fields: strings are sequences of code points. Invalid UTF-8, which Go decodes as U+FFFD, is not modelled.
- Int width: scores are unbounded integers. Go's `int` wrap-around after 2^63 votes is not modelled.
- Bot.Run: each line's map iteration order and save outcome are inputs (`orders`, `saves`), because the program does not fix them.

## Findings

| source | as written | input that shows it | evidently intended | confidence | as-written member | corrected member |
|---|---|---|---|---|---|---|
| main.go:111-124 | The loop body reads the fifth field of any PRIVMSG line whose fourth field is `:shelbot` without checking the field count. It reads the sixth field after `query` the same way. | `:nick!u@host PRIVMSG #chan :shelbot` (someone says just "shelbot"), or the same line followed by `query` | A line too short for its shape is ignored; the bot keeps running | not executed | Scenarios.ShortDirectedLinesFault | Dispatch.SafeStepAgrees |
