/** The karma store as the receive loop sees it: a map from handle to score
    with query, increment and decrement. The store's own code (k.query,
    k.increment, k.decrement) is not part of this model; it is taken to treat
    an absent handle as score 0 and to return the new score. */
module Karma {

  type Db = map<string, int>

  /** k.query: the score of h, 0 when h has none. */
  function Query(db: Db, h: string): (n: int)
    ensures h !in db ==> n == 0
    ensures h in db ==> n == db[h]
  {
    if h in db then db[h] else 0
  }

  /** k.increment: one more for h (created at 0 if absent); returns the new
      database and the new score. */
  function Increment(db: Db, h: string): (r: (Db, int))
    ensures r.1 == Query(db, h) + 1
    ensures r.0.Keys == db.Keys + {h}
    ensures forall x :: Query(r.0, x) == if x == h then r.1 else Query(db, x)
  {
    var n := Query(db, h) + 1;
    (db[h := n], n)
  }

  /** k.decrement: one less for h (created at 0 if absent). */
  function Decrement(db: Db, h: string): (r: (Db, int))
    ensures r.1 == Query(db, h) - 1
    ensures r.0.Keys == db.Keys + {h}
    ensures forall x :: Query(r.0, x) == if x == h then r.1 else Query(db, x)
  {
    var n := Query(db, h) - 1;
    (db[h := n], n)
  }

  datatype Ballot = Up | Down

  /** Applies a sequence of "h++" / "h--" votes for one handle, in order. */
  function ApplyVotes(db: Db, h: string, votes: seq<Ballot>): Db
    decreases |votes|
  {
    if votes == [] then db
    else
      var next := if votes[0] == Up then Increment(db, h).0 else Decrement(db, h).0;
      ApplyVotes(next, h, votes[1..])
  }

  function CountVotes(votes: seq<Ballot>, v: Ballot): nat {
    if votes == [] then 0
    else (if votes[0] == v then 1 else 0) + CountVotes(votes[1..], v)
  }

  /** After n increments and m decrements of h, in any interleaving, h's
      score has moved by exactly n - m and every other score is untouched. */
  lemma {:induction false} VotesNet(db: Db, h: string, votes: seq<Ballot>)
    ensures Query(ApplyVotes(db, h, votes), h)
         == Query(db, h) + CountVotes(votes, Up) - CountVotes(votes, Down)
    ensures forall x :: x != h ==> Query(ApplyVotes(db, h, votes), x) == Query(db, x)
    decreases |votes|
  {
    if votes != [] {
      var next := if votes[0] == Up then Increment(db, h).0 else Decrement(db, h).0;
      VotesNet(next, h, votes[1..]);
    }
  }

  /** A decrement undoes an increment, up to the zero entry it may create. */
  lemma DecrementUndoesIncrement(db: Db, h: string)
    ensures Decrement(Increment(db, h).0, h).0 == db[h := Query(db, h)]
    ensures forall x :: Query(Decrement(Increment(db, h).0, h).0, x) == Query(db, x)
  {
  }
}
