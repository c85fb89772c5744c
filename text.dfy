/** The string handling the receive loop relies on: whitespace tokenising
    (strings.Fields), suffix tests (strings.HasSuffix), trimming a cutset from
    both ends (strings.Trim) and decimal formatting of an int (the %d verb). */
module Text {

  /** unicode.IsSpace: the Latin-1 spaces plus the other code points with
      the Unicode White_Space property. */
  predicate IsSpace(c: char) {
    || c == '\t' || c == '\n' || c == '\U{000B}' || c == '\U{000C}' || c == '\r'
    || c == ' ' || c == '\U{0085}' || c == '\U{00A0}' || c == '\U{1680}'
    || ('\U{2000}' <= c <= '\U{200A}')
    || c == '\U{2028}' || c == '\U{2029}' || c == '\U{202F}' || c == '\U{205F}'
    || c == '\U{3000}'
  }

  predicate AllSpace(s: string) {
    forall i :: 0 <= i < |s| ==> IsSpace(s[i])
  }

  /** A field as strings.Fields yields it: non-empty, no white space inside. */
  predicate IsWord(w: string) {
    |w| > 0 && forall i :: 0 <= i < |w| ==> !IsSpace(w[i])
  }

  /** The length of the run of non-space characters that starts s. */
  function WordLen(s: string): (n: nat)
    ensures n <= |s|
    ensures forall i :: 0 <= i < n ==> !IsSpace(s[i])
    ensures n == |s| || IsSpace(s[n])
  {
    if s == [] || IsSpace(s[0]) then 0 else 1 + WordLen(s[1..])
  }

  /** strings.Fields: the maximal runs of non-space characters, in order. */
  function Fields(s: string): (r: seq<string>)
    ensures forall i :: 0 <= i < |r| ==> IsWord(r[i])
    decreases |s|
  {
    if s == [] then []
    else if IsSpace(s[0]) then Fields(s[1..])
    else
      var n := WordLen(s);
      [s[..n]] + Fields(s[n..])
  }

  /** The words joined by single blanks: the inverse of Fields on words. */
  function Unwords(ws: seq<string>): string {
    if ws == [] then []
    else if |ws| == 1 then ws[0]
    else ws[0] + " " + Unwords(ws[1..])
  }

  lemma {:induction false} FieldsOfSpace(s: string)
    requires AllSpace(s)
    ensures Fields(s) == []
    decreases |s|
  {
    if s != [] {
      FieldsOfSpace(s[1..]);
    }
  }

  /** A word followed by white space or nothing is one whole field. */
  lemma WordLenOfWord(w: string, rest: string)
    requires IsWord(w)
    requires rest == [] || IsSpace(rest[0])
    ensures WordLen(w + rest) == |w|
  {
    var s := w + rest;
    var n := WordLen(s);
    if rest != [] {
      assert s[|w|] == rest[0];
    }
    assert forall i :: 0 <= i < |w| ==> s[i] == w[i];
  }

  /** A word followed by white space only is a single field. */
  lemma FieldsOfWordThenSpace(w: string, tail: string)
    requires IsWord(w) && AllSpace(tail)
    ensures Fields(w + tail) == [w]
  {
    var s := w + tail;
    WordLenOfWord(w, tail);
    assert s[..|w|] == w && s[|w|..] == tail;
    FieldsOfSpace(tail);
  }

  /** A word, a blank, then anything: the word is the first field and the
      rest is tokenised on its own. */
  lemma FieldsOfWordThenBlank(w: string, more: string)
    requires IsWord(w)
    ensures Fields(w + " " + more) == [w] + Fields(more)
  {
    var s := w + (" " + more);
    assert w + " " + more == s;
    WordLenOfWord(w, " " + more);
    assert s[..|w|] == w;
    assert s[|w|..] == " " + more;
    assert (" " + more)[1..] == more;
  }

  /** White space in front of a line never makes a field. */
  lemma {:induction false} FieldsOfSpaceThen(sp: string, s: string)
    requires AllSpace(sp)
    ensures Fields(sp + s) == Fields(s)
    decreases |sp|
  {
    if sp != [] {
      var t := sp + s;
      assert t[0] == sp[0] && IsSpace(t[0]);
      assert t[1..] == sp[1..] + s;
      assert Fields(t) == Fields(t[1..]);
      FieldsOfSpaceThen(sp[1..], s);
    } else {
      assert sp + s == s;
    }
  }

  /** A word followed by white space and anything after: the word is the
      first field and the tail is tokenised on its own. */
  lemma FieldsOfWordThenTail(w: string, tail: string)
    requires IsWord(w) && tail != [] && IsSpace(tail[0])
    ensures Fields(w + tail) == [w] + Fields(tail)
  {
    var t := w + tail;
    WordLenOfWord(w, tail);
    assert t[..|w|] == w;
    assert t[|w|..] == tail;
  }

  /** A word, a run of any white space, then anything: the word is the first
      field and the rest is tokenised on its own, so runs of blanks split
      fields just as one blank does. */
  lemma FieldsOfWordThenSpaces(w: string, sp: string, s: string)
    requires IsWord(w) && sp != [] && AllSpace(sp)
    ensures Fields(w + sp + s) == [w] + Fields(s)
  {
    assert w + sp + s == w + (sp + s);
    assert (sp + s)[0] == sp[0];
    FieldsOfWordThenTail(w, sp + s);
    FieldsOfSpaceThen(sp, s);
  }

  /** Words joined by blanks, then white space and anything after: the
      words come first and the tail is tokenised on its own. */
  lemma {:induction false} FieldsUnwordsThen(ws: seq<string>, tail: string)
    requires ws != [] && forall i :: 0 <= i < |ws| ==> IsWord(ws[i])
    requires tail != [] && IsSpace(tail[0])
    ensures Fields(Unwords(ws) + tail) == ws + Fields(tail)
    decreases |ws|
  {
    if |ws| == 1 {
      FieldsOfWordThenTail(ws[0], tail);
      assert ws == [ws[0]];
    } else {
      var rest := Unwords(ws[1..]) + tail;
      calc {
        Fields(Unwords(ws) + tail);
        { assert Unwords(ws) + tail == ws[0] + " " + rest; }
        Fields(ws[0] + " " + rest);
        { FieldsOfWordThenBlank(ws[0], rest); }
        [ws[0]] + Fields(rest);
        { FieldsUnwordsThen(ws[1..], tail); }
        [ws[0]] + (ws[1..] + Fields(tail));
        { assert ws == [ws[0]] + ws[1..]; }
        ws + Fields(tail);
      }
    }
  }

  /** Tokenising words joined by blanks, with any trailing white space
      (such as a CRLF terminator), gives the words back. */
  lemma {:induction false} FieldsUnwords(ws: seq<string>, tail: string)
    requires forall i :: 0 <= i < |ws| ==> IsWord(ws[i])
    requires AllSpace(tail)
    ensures Fields(Unwords(ws) + tail) == ws
    decreases |ws|
  {
    if ws == [] {
      assert Unwords(ws) + tail == tail;
      FieldsOfSpace(tail);
    } else if |ws| == 1 {
      FieldsOfWordThenSpace(ws[0], tail);
    } else {
      var more := Unwords(ws[1..]) + tail;
      assert Unwords(ws) + tail == ws[0] + " " + more;
      FieldsOfWordThenBlank(ws[0], more);
      FieldsUnwords(ws[1..], tail);
      assert [ws[0]] + ws[1..] == ws;
    }
  }

  predicate HasSuffix(s: string, suffix: string) {
    |suffix| <= |s| && s[|s| - |suffix|..] == suffix
  }

  /** strings.TrimLeft: drops every leading character that occurs in cutset. */
  function TrimLeft(s: string, cutset: string): (r: string)
    ensures |r| <= |s| && r == s[|s| - |r|..]
    ensures forall i :: 0 <= i < |s| - |r| ==> s[i] in cutset
    ensures r == [] || r[0] !in cutset
  {
    if s != [] && s[0] in cutset then TrimLeft(s[1..], cutset) else s
  }

  /** strings.TrimRight: drops every trailing character that occurs in cutset. */
  function TrimRight(s: string, cutset: string): (r: string)
    ensures |r| <= |s| && r == s[..|r|]
    ensures forall i :: |r| <= i < |s| ==> s[i] in cutset
    ensures r == [] || r[|r| - 1] !in cutset
  {
    if s != [] && s[|s| - 1] in cutset then TrimRight(s[..|s| - 1], cutset) else s
  }

  /** strings.Trim: drops the cutset characters from both ends. */
  function Trim(s: string, cutset: string): (r: string)
    ensures |r| <= |s|
  {
    TrimRight(TrimLeft(s, cutset), cutset)
  }

  /** r sits in s at lo, everything around it is cutset, and neither end of
      r is in the cutset (r may be empty). */
  predicate TrimmedPiece(s: string, lo: nat, r: string, cutset: string) {
    && lo + |r| <= |s| && s[lo..lo + |r|] == r
    && (r == [] || (r[0] !in cutset && r[|r| - 1] !in cutset))
    && (forall i :: 0 <= i < lo ==> s[i] in cutset)
    && (forall i :: lo + |r| <= i < |s| ==> s[i] in cutset)
  }

  /** Trim keeps one contiguous piece of s, starting where TrimLeft stops. */
  lemma {:induction false} TrimSpec(s: string, cutset: string)
    ensures TrimmedPiece(s, |s| - |TrimLeft(s, cutset)|, Trim(s, cutset), cutset)
  {
    var l := TrimLeft(s, cutset);
    var r := TrimRight(l, cutset);
    TrimPieces(s, l, r, cutset);
  }

  /** Dropping cutset characters from the front of s (leaving l) and then
      from the back of l (leaving r) leaves a trimmed piece of s. */
  lemma {:induction false} TrimPieces(s: string, l: string, r: string, cutset: string)
    requires |l| <= |s| && l == s[|s| - |l|..]
    requires forall i :: 0 <= i < |s| - |l| ==> s[i] in cutset
    requires l == [] || l[0] !in cutset
    requires |r| <= |l| && r == l[..|r|]
    requires forall i :: |r| <= i < |l| ==> l[i] in cutset
    requires r == [] || r[|r| - 1] !in cutset
    ensures TrimmedPiece(s, |s| - |l|, r, cutset)
  {
    var lo := |s| - |l|;
    assert forall i :: lo <= i < |s| ==> s[i] == l[i - lo];
    assert forall i :: 0 <= i < |r| ==> r[i] == s[lo + i];
  }

  /** At most one piece of s is trimmed: the piece is unique. */
  lemma TrimmedPieceUnique(s: string, lo1: nat, r1: string, lo2: nat, r2: string, cutset: string)
    requires TrimmedPiece(s, lo1, r1, cutset) && TrimmedPiece(s, lo2, r2, cutset)
    ensures r1 == r2
  {
    if r1 != [] {
      assert s[lo1] == r1[0];
      assert s[lo1 + |r1| - 1] == r1[|r1| - 1];
    }
    if r2 != [] {
      assert s[lo2] == r2[0];
      assert s[lo2 + |r2| - 1] == r2[|r2| - 1];
    }
  }

  /** Trim gives back the middle piece when the characters around it are
      all cutset and its own ends are not. */
  lemma TrimExact(pre: string, mid: string, post: string, cutset: string)
    requires forall i :: 0 <= i < |pre| ==> pre[i] in cutset
    requires forall i :: 0 <= i < |post| ==> post[i] in cutset
    requires mid == [] || (mid[0] !in cutset && mid[|mid| - 1] !in cutset)
    ensures Trim(pre + mid + post, cutset) == mid
  {
    var s := pre + mid + post;
    assert s[|pre|..|pre| + |mid|] == mid;
    assert forall i :: 0 <= i < |pre| ==> s[i] == pre[i];
    assert forall i :: |pre| + |mid| <= i < |s| ==> s[i] == post[i - |pre| - |mid|];
    assert TrimmedPiece(s, |pre|, mid, cutset);
    TrimSpec(s, cutset);
    TrimmedPieceUnique(s, |pre|, mid, |s| - |TrimLeft(s, cutset)|, Trim(s, cutset), cutset);
  }

  lemma TrimIdempotent(s: string, cutset: string)
    ensures Trim(Trim(s, cutset), cutset) == Trim(s, cutset)
  {
    var r := Trim(s, cutset);
    assert TrimLeft(r, cutset) == r;
    assert TrimRight(r, cutset) == r;
  }

  /** Decimal digits of n, most significant first, without leading zeros. */
  function NatToDecimal(n: nat): (r: string)
    ensures |r| > 0 && (forall i :: 0 <= i < |r| ==> '0' <= r[i] <= '9')
    ensures r[0] == '0' ==> n == 0
    ensures |r| > 1 ==> r[0] != '0'
    ensures n < 10 <==> |r| == 1
  {
    if n < 10 then [Digit(n)] else NatToDecimal(n / 10) + [Digit(n % 10)]
  }

  function Digit(d: nat): (c: char)
    requires d < 10
    ensures '0' <= c <= '9'
  {
    (48 + d) as char
  }

  /** The value of a string of decimal digits. */
  function DecimalValue(s: string): nat
    requires forall i :: 0 <= i < |s| ==> '0' <= s[i] <= '9'
  {
    if s == [] then 0
    else 10 * DecimalValue(s[..|s| - 1]) + (s[|s| - 1] as int - 48)
  }

  /** fmt's %d on an int: a minus sign for negative values. */
  function IntToDecimal(i: int): (r: string)
    ensures |r| > 0 && (r[0] == '-' <==> i < 0)
    ensures forall j :: (if i < 0 then 1 else 0) <= j < |r| ==> '0' <= r[j] <= '9'
    ensures i >= 0 ==> (r[0] == '0' <==> i == 0)
    ensures var d := if i < 0 then r[1..] else r; |d| > 0 && (|d| > 1 ==> d[0] != '0')
    ensures i < 0 ==> r[1] != '0'
  {
    if i < 0 then "-" + NatToDecimal(-i) else NatToDecimal(i)
  }

  function ParseInt(s: string): int
    requires |s| > 0
    requires forall i :: (if s[0] == '-' then 1 else 0) <= i < |s| ==> '0' <= s[i] <= '9'
  {
    if s[0] == '-' then -(DecimalValue(s[1..]) as int) else DecimalValue(s)
  }

  lemma {:induction false} NatToDecimalValue(n: nat)
    ensures DecimalValue(NatToDecimal(n)) == n
  {
    if n >= 10 {
      var r := NatToDecimal(n);
      assert r[..|r| - 1] == NatToDecimal(n / 10);
      NatToDecimalValue(n / 10);
    }
  }

  /** The decimal text of an int reads back as that int, so two different
      scores never print the same. */
  lemma IntToDecimalRoundTrip(i: int)
    ensures var s := IntToDecimal(i);
      |s| > 0 && (forall j :: (if s[0] == '-' then 1 else 0) <= j < |s| ==> '0' <= s[j] <= '9')
      && ParseInt(s) == i
  {
    var s := IntToDecimal(i);
    if i < 0 {
      assert s[1..] == NatToDecimal(-i);
      NatToDecimalValue(-i);
    } else {
      NatToDecimalValue(i);
    }
  }
}
