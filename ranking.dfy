/** The "topten" listing: the karma entries copied into a PairList and sorted
    with sort.Sort(sort.Reverse(p)), i.e. by score, highest first. */
module Ranking {
  import opened Karma

  /** Pair in the Go code: one karma entry. */
  datatype Pair = Pair(key: string, value: int)

  /** PairList.Less: ascending by score. */
  predicate Less(p: seq<Pair>, i: int, j: int)
    requires 0 <= i < |p| && 0 <= j < |p|
  {
    p[i].value < p[j].value
  }

  /** The Less of sort.Reverse(p): Less with its arguments swapped. */
  predicate ReverseLess(p: seq<Pair>, i: int, j: int)
    requires 0 <= i < |p| && 0 <= j < |p|
  {
    Less(p, j, i)
  }

  /** Non-increasing by score. */
  predicate SortedDesc(p: seq<Pair>) {
    forall i, j :: 0 <= i < j < |p| ==> p[i].value >= p[j].value
  }

  /** sort.IsSorted's test at position i of sort.Reverse(p): element i is not
      Less than its predecessor. */
  predicate InOrderAt(p: seq<Pair>, i: int)
    requires 0 < i < |p|
  {
    !ReverseLess(p, i, i - 1)
  }

  /** What sort.Sort promises for sort.Reverse(p), checked pairwise on
      neighbours as sort.IsSorted does, is exactly SortedDesc. */
  lemma {:induction false} IsSortedReverse(p: seq<Pair>)
    ensures SortedDesc(p) <==> forall i :: 0 < i < |p| ==> InOrderAt(p, i)
    decreases |p|
  {
    if (forall i :: 0 < i < |p| ==> InOrderAt(p, i)) && |p| > 1 {
      var q := p[1..];
      forall i | 0 < i < |q| ensures InOrderAt(q, i) {
        assert InOrderAt(p, i + 1);
      }
      IsSortedReverse(q);
      assert InOrderAt(p, 1);
      forall i, j | 0 <= i < j < |p| ensures p[i].value >= p[j].value {
        if i > 0 {
          assert q[i - 1] == p[i] && q[j - 1] == p[j];
        } else if j > 1 {
          assert q[0] == p[1] && q[j - 1] == p[j];
        }
      }
    }
  }

  /** The entries of the karma database, as pairs. */
  function Entries(db: Db): set<Pair> {
    set k | k in db :: Pair(k, db[k])
  }

  /** The entries of db whose handles are in ks. */
  function EntriesOn(db: Db, ks: set<string>): set<Pair> {
    set k | k in ks && k in db :: Pair(k, db[k])
  }

  /** A valid "topten" list for db: a permutation of its entries, sorted
      non-increasing by score. Ties may come in any order. */
  predicate IsRankingOf(r: seq<Pair>, db: Db) {
    SortedDesc(r) && multiset(r) == multiset(Entries(db))
  }

  /** order lists every handle of db exactly once, as a range over the map does. */
  predicate IsListing(order: seq<string>, db: Db) {
    && (forall k :: k in db ==> k in order)
    && (forall i :: 0 <= i < |order| ==> order[i] in db)
    && (forall i, j :: 0 <= i < j < |order| ==> order[i] != order[j])
  }

  /** The PairList built by ranging over db in the given order. */
  function Collect(db: Db, order: seq<string>): (r: seq<Pair>)
    ensures |r| <= |order|
    ensures forall p :: p in r ==> p.key in db && db[p.key] == p.value
    decreases |order|
  {
    if order == [] then []
    else if order[0] in db then [Pair(order[0], db[order[0]])] + Collect(db, order[1..])
    else Collect(db, order[1..])
  }

  lemma SortedCons(y: Pair, t: seq<Pair>)
    requires SortedDesc(t) && (t == [] || t[0].value <= y.value)
    ensures SortedDesc([y] + t)
  {
    forall i, j | 0 <= i < j < |[y] + t| ensures ([y] + t)[i].value >= ([y] + t)[j].value {
      if i > 0 {
        assert ([y] + t)[i] == t[i - 1];
      }
      assert ([y] + t)[j] == t[j - 1];
    }
  }

  /** Inserts x before the first element that does not outscore it. */
  function Insert(x: Pair, s: seq<Pair>): (r: seq<Pair>)
    requires SortedDesc(s)
    ensures SortedDesc(r)
    ensures multiset(r) == multiset(s) + multiset{x}
    ensures r != [] && (r[0] == x || (s != [] && r[0] == s[0]))
  {
    if s == [] || x.value >= s[0].value then [x] + s
    else
      var t := Insert(x, s[1..]);
      assert s == [s[0]] + s[1..];
      assert t[0].value <= s[0].value;
      SortedCons(s[0], t);
      [s[0]] + t
  }

  /** A reference sort: insertion sort, non-increasing by score. */
  function SortDesc(s: seq<Pair>): (r: seq<Pair>)
    ensures SortedDesc(r)
    ensures multiset(r) == multiset(s)
  {
    if s == [] then []
    else
      assert s == [s[0]] + s[1..];
      Insert(s[0], SortDesc(s[1..]))
  }

  /** The "topten" list for one iteration order of the map. */
  function Ranked(db: Db, order: seq<string>): (r: seq<Pair>)
    ensures SortedDesc(r) && multiset(r) == multiset(Collect(db, order))
    ensures forall p :: p in r ==> p.key in db && db[p.key] == p.value
  {
    var c := Collect(db, order);
    var r := SortDesc(c);
    assert forall p :: p in r ==> p in multiset(r);
    r
  }

  lemma MultisetOfDisjointUnion(a: set<Pair>, b: set<Pair>)
    requires a !! b
    ensures multiset(a + b) == multiset(a) + multiset(b)
  {
    forall x ensures multiset(a + b)[x] == (multiset(a) + multiset(b))[x] {
    }
  }

  lemma {:induction false} CollectEntries(db: Db, order: seq<string>)
    requires forall i, j :: 0 <= i < j < |order| ==> order[i] != order[j]
    ensures multiset(Collect(db, order)) == multiset(EntriesOn(db, set k | k in order))
    decreases |order|
  {
    if order == [] {
      assert EntriesOn(db, set k | k in order) == {};
    } else {
      var k, ks, rest := order[0], set k | k in order, set k | k in order[1..];
      CollectEntries(db, order[1..]);
      HeadNotInTail(order);
      assert ks - {k} == rest;
      if k in db {
        assert Collect(db, order) == [Pair(k, db[k])] + Collect(db, order[1..]);
        EntriesOnRemove(db, ks, k);
      } else {
        assert Collect(db, order) == Collect(db, order[1..]);
        assert EntriesOn(db, ks) == EntriesOn(db, rest);
      }
    }
  }

  lemma HeadNotInTail(order: seq<string>)
    requires order != []
    requires forall i, j :: 0 <= i < j < |order| ==> order[i] != order[j]
    ensures order[0] !in order[1..]
  {
    forall i | 0 <= i < |order[1..]| ensures order[1..][i] != order[0] {
      assert order[1..][i] == order[i + 1];
    }
  }

  /** Whatever order the map is ranged over, the sorted PairList is a valid
      "topten" list with one line per entry: nothing is truncated. */
  lemma RankedIsRanking(db: Db, order: seq<string>)
    requires IsListing(order, db)
    ensures IsRankingOf(Ranked(db, order), db)
    ensures |Ranked(db, order)| == |db|
  {
    CollectEntries(db, order);
    assert EntriesOn(db, set k | k in order) == Entries(db);
    var r := Ranked(db, order);
    assert |multiset(r)| == |r|;
    assert |multiset(Entries(db))| == |Entries(db)|;
    EntriesSize(db);
  }

  lemma {:induction false} EntriesSize(db: Db)
    ensures |Entries(db)| == |db|
    decreases |db|
  {
    if db != map[] {
      var k :| k in db;
      var smaller := db - {k};
      EntriesRemove(db, k);
      assert db.Keys == smaller.Keys + {k};
      EntriesSize(smaller);
    }
  }

  /** Removing a handle from the store removes exactly its entry. */
  lemma EntriesRemove(db: Db, k: string)
    requires k in db
    ensures Entries(db) == Entries(db - {k}) + {Pair(k, db[k])}
    ensures Pair(k, db[k]) !in Entries(db - {k})
  {
    var smaller, e := db - {k}, Pair(k, db[k]);
    forall x | x in Entries(db) ensures x in Entries(smaller) + {e} {
      var h :| h in db && x == Pair(h, db[h]);
      if h != k {
        assert h in smaller;
      }
    }
    forall x | x in Entries(smaller) + {e} ensures x in Entries(db) {
      if x != e {
        var h :| h in smaller && x == Pair(h, smaller[h]);
        assert h in db;
      }
    }
  }

  function Keys(r: seq<Pair>): (ks: seq<string>)
    ensures |ks| == |r| && forall i :: 0 <= i < |r| ==> ks[i] == r[i].key
  {
    if r == [] then [] else [r[0].key] + Keys(r[1..])
  }

  /** A sorted list is left as it is by the reference sort. */
  lemma {:induction false} SortDescKeepsSorted(s: seq<Pair>)
    requires SortedDesc(s)
    ensures SortDesc(s) == s
  {
    if s != [] {
      SortDescKeepsSorted(s[1..]);
    }
  }

  lemma {:induction false} CollectKeys(db: Db, r: seq<Pair>)
    requires forall i :: 0 <= i < |r| ==> r[i].key in db && db[r[i].key] == r[i].value
    ensures Collect(db, Keys(r)) == r
  {
    if r != [] {
      assert Keys(r)[1..] == Keys(r[1..]);
      CollectKeys(db, r[1..]);
    }
  }

  lemma OccursTwice(r: seq<Pair>, i: int, j: int)
    requires 0 <= i < j < |r| && r[i] == r[j]
    ensures multiset(r)[r[i]] >= 2
  {
    assert r == r[..j] + r[j..];
    assert r[i] in r[..j];
    assert r[j] in r[j..];
  }

  /** Each pair of a valid "topten" list is an entry of db. */
  lemma RankingEntries(db: Db, r: seq<Pair>)
    requires multiset(r) == multiset(Entries(db))
    ensures forall i :: 0 <= i < |r| ==> r[i].key in db && db[r[i].key] == r[i].value
  {
    forall i | 0 <= i < |r| ensures r[i].key in db && db[r[i].key] == r[i].value {
      assert r[i] in multiset(r);
      assert r[i] in Entries(db);
    }
  }

  /** A valid "topten" list names every handle of db, each once. */
  lemma RankingKeysListing(db: Db, r: seq<Pair>)
    requires multiset(r) == multiset(Entries(db))
    ensures IsListing(Keys(r), db)
  {
    var ks := Keys(r);
    RankingEntries(db, r);
    forall k | k in db ensures k in ks {
      var e := Pair(k, db[k]);
      assert e in Entries(db);
      assert e in multiset(r);
      var i :| 0 <= i < |r| && r[i] == e;
      assert ks[i] == k;
    }
    forall i, j | 0 <= i < j < |ks| ensures ks[i] != ks[j] {
      if ks[i] == ks[j] {
        assert r[i] == r[j];
        OccursTwice(r, i, j);
      }
    }
  }

  /** Every valid "topten" list is what some iteration order of the map
      produces: the model fixes no tie-break. */
  lemma RankingReachable(db: Db, r: seq<Pair>)
    requires IsRankingOf(r, db)
    ensures IsListing(Keys(r), db) && Ranked(db, Keys(r)) == r
  {
    RankingKeysListing(db, r);
    RankingEntries(db, r);
    CollectKeys(db, r);
    SortDescKeepsSorted(r);
  }

  /** Scores with no ties leave only one valid order. */
  predicate NoTies(r: seq<Pair>) {
    forall i, j :: 0 <= i < |r| && 0 <= j < |r| && r[i].value == r[j].value ==> r[i] == r[j]
  }

  /** Two sorted permutations of each other start with the same pair when
      scores do not tie. */
  lemma HeadsAgree(r: seq<Pair>, s: seq<Pair>)
    requires SortedDesc(r) && SortedDesc(s) && multiset(r) == multiset(s) && NoTies(r)
    requires r != []
    ensures s != [] && r[0] == s[0]
  {
    assert r[0] in multiset(s);
    var j :| 0 <= j < |s| && s[j] == r[0];
    assert s[0] in multiset(r);
    var i :| 0 <= i < |r| && r[i] == s[0];
    assert r[0].value >= r[i].value && s[0].value >= s[j].value;
  }

  lemma TailsPermuted(r: seq<Pair>, s: seq<Pair>)
    requires r != [] && s != [] && r[0] == s[0] && multiset(r) == multiset(s)
    ensures multiset(r[1..]) == multiset(s[1..])
  {
    assert r == [r[0]] + r[1..] && s == [s[0]] + s[1..];
    assert multiset(r) == multiset{r[0]} + multiset(r[1..]);
    assert multiset(s) == multiset{s[0]} + multiset(s[1..]);
    forall x ensures multiset(r[1..])[x] == multiset(s[1..])[x] {
      assert multiset(r)[x] == multiset{r[0]}[x] + multiset(r[1..])[x];
      assert multiset(s)[x] == multiset{s[0]}[x] + multiset(s[1..])[x];
    }
  }

  lemma {:induction false} RankingUnique(r: seq<Pair>, s: seq<Pair>)
    requires SortedDesc(r) && SortedDesc(s) && multiset(r) == multiset(s) && NoTies(r)
    ensures r == s
    decreases |r|
  {
    if r != [] {
      HeadsAgree(r, s);
      TailsPermuted(r, s);
      RankingUnique(r[1..], s[1..]);
      assert r == [r[0]] + r[1..] && s == [s[0]] + s[1..];
    } else {
      assert |multiset(s)| == 0;
    }
  }

  /** Taking one handle out of ks takes its one entry out of EntriesOn. */
  lemma EntriesOnRemove(db: Db, ks: set<string>, k: string)
    requires k in ks && k in db
    ensures multiset(EntriesOn(db, ks)) == multiset(EntriesOn(db, ks - {k})) + multiset{Pair(k, db[k])}
  {
    assert EntriesOn(db, ks) == EntriesOn(db, ks - {k}) + {Pair(k, db[k])};
    MultisetOfDisjointUnion(EntriesOn(db, ks - {k}), {Pair(k, db[k])});
  }

  /** Ranging over a map visits its keys once each, in an order it does not
      fix: the walk below chooses a key still left at every step. */
  method CollectPairs(db: Db) returns (p: array<Pair>)
    ensures fresh(p)
    ensures multiset(p[..]) == multiset(Entries(db))
  {
    p := new Pair[|db|](_ => Pair("", 0));
    var i := 0;
    var rest := db.Keys;
    while rest != {}
      invariant rest <= db.Keys
      invariant i + |rest| == p.Length
      invariant multiset(p[..i]) + multiset(EntriesOn(db, rest)) == multiset(Entries(db))
      decreases |rest|
    {
      var k :| k in rest;
      var e := Pair(k, db[k]);
      EntriesOnRemove(db, rest, k);
      p[i] := e;
      assert p[..i + 1] == p[..i] + [e];
      i := i + 1;
      rest := rest - {k};
    }
    assert EntriesOn(db, rest) == {};
    assert p[..] == p[..i];
  }

  /** PairList.Swap. */
  method Swap(a: array<Pair>, i: int, j: int)
    requires 0 <= i < a.Length && 0 <= j < a.Length
    modifies a
    ensures a[..] == old(a[..])[i := old(a[j])][j := old(a[i])]
    ensures multiset(a[..]) == old(multiset(a[..]))
  {
    a[i], a[j] := a[j], a[i];
  }

  /** s[..hi+1] is sorted once the element at j is left out. */
  predicate SortedExcept(s: seq<Pair>, hi: int, j: int)
    requires hi < |s|
  {
    forall x, y :: 0 <= x < y <= hi && x != j && y != j ==> s[x].value >= s[y].value
  }

  /** The element at j outscores everything after it up to hi. */
  predicate LeadsUpTo(s: seq<Pair>, j: int, hi: int)
    requires 0 <= j <= hi < |s|
  {
    forall y :: j < y <= hi ==> s[j].value >= s[y].value
  }

  /** One swap moves the element being inserted a step towards the front. */
  lemma SwapStep(s: seq<Pair>, j: int, hi: int)
    requires 0 < j <= hi < |s|
    requires SortedExcept(s, hi, j) && LeadsUpTo(s, j, hi)
    requires s[j - 1].value < s[j].value
    ensures var t := s[j - 1 := s[j]][j := s[j - 1]];
      SortedExcept(t, hi, j - 1) && LeadsUpTo(t, j - 1, hi)
  {
  }

  /** Once the inserted element is in place, s[..hi+1] is sorted. */
  lemma SettleStep(s: seq<Pair>, j: int, hi: int)
    requires 0 <= j <= hi < |s|
    requires SortedExcept(s, hi, j) && LeadsUpTo(s, j, hi)
    requires j == 0 || s[j - 1].value >= s[j].value
    ensures SortedDesc(s[..hi + 1])
  {
  }

  /** sort.Sort(sort.Reverse(p)), here by insertion with adjacent swaps. */
  method SortDescending(a: array<Pair>)
    modifies a
    ensures SortedDesc(a[..])
    ensures multiset(a[..]) == old(multiset(a[..]))
  {
    var i := 0;
    while i < a.Length
      invariant 0 <= i <= a.Length
      invariant SortedDesc(a[..i])
      invariant multiset(a[..]) == old(multiset(a[..]))
    {
      var j := i;
      while j > 0 && ReverseLess(a[..], j, j - 1)
        invariant 0 <= j <= i
        invariant multiset(a[..]) == old(multiset(a[..]))
        invariant SortedExcept(a[..], i, j) && LeadsUpTo(a[..], j, i)
      {
        SwapStep(a[..], j, i);
        Swap(a, j - 1, j);
        j := j - 1;
      }
      SettleStep(a[..], j, i);
      i := i + 1;
    }
    assert a[..] == a[..a.Length];
  }

  /** main.go's topten collection and sort: the PairList ends up a valid
      "topten" list for db. */
  method TopTenPairs(db: Db) returns (p: array<Pair>)
    ensures IsRankingOf(p[..], db)
  {
    p := CollectPairs(db);
    SortDescending(p);
  }
}
