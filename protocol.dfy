/** The IRC lines the bot writes: the handshake, PONG replies and PRIVMSG
    replies to the channel, each framed with a CRLF terminator. */
module Protocol {
  import opened Text
  import opened Ranking

  const Version: string := "1.3.0"

  /** The token a directed command must carry as its fourth field: the bot's
      name is written into the code, not taken from the configuration. */
  const BotToken: string := ":shelbot"

  const CRLF: string := "\r\n"

  /** "PRIVMSG <channel> :<text>\r\n": one protocol line exactly when
      neither the channel nor the text carries a line break of its own. */
  function Privmsg(channel: string, text: string): (r: string)
    ensures IsFrame(r) <==> NoLineBreak(channel) && NoLineBreak(text)
  {
    NoLineBreakConcat("PRIVMSG ", channel);
    NoLineBreakConcat("PRIVMSG " + channel, " :");
    NoLineBreakConcat("PRIVMSG " + channel + " :", text);
    FrameOf("PRIVMSG " + channel + " :" + text);
    "PRIVMSG " + channel + " :" + text + CRLF
  }

  /** The answer to a server PING echoes its token. */
  function Pong(token: string): (r: string)
    ensures IsFrame(r) <==> NoLineBreak(token)
  {
    NoLineBreakConcat("PONG ", token);
    FrameOf("PONG " + token);
    "PONG " + token + CRLF
  }

  const Greeting: string := "Shelbot version " + Version + " reporting for duty."

  /** USER, NICK, JOIN and the greeting, in the order they are written; each
      is one protocol line when the configured names hold no line break. */
  function Handshake(nick: string, user: string, channel: string): (r: seq<string>)
    ensures |r| == 4
    ensures NoLineBreak(nick) && NoLineBreak(user) && NoLineBreak(channel)
      ==> forall i :: 0 <= i < 4 ==> IsFrame(r[i])
  {
    var u := "USER " + nick + " 8 * :" + user;
    NoLineBreakConcat("USER ", nick);
    NoLineBreakConcat("USER " + nick, " 8 * :");
    NoLineBreakConcat("USER " + nick + " 8 * :", user);
    FrameOf(u);
    NoLineBreakConcat("NICK ", nick);
    FrameOf("NICK " + nick);
    NoLineBreakConcat("JOIN ", channel);
    FrameOf("JOIN " + channel);
    GreetingHasNoLineBreak();
    [ u + CRLF, "NICK " + nick + CRLF, "JOIN " + channel + CRLF, Privmsg(channel, Greeting) ]
  }

  /* The help texts are written in pieces so that the verifier can check
     them for line breaks one short piece at a time. */
  const HelpCommands: string :=
    "Shelbot commands available: " + "\"help\", \"version\", " + "\"query item\"."
  const HelpIdiom: string :=
    "Karma can be incremented " + "idiomatically: " + "\"foo++\" and \"bar--\"."

  /** The two lines answering "help". */
  function HelpLines(channel: string): (r: seq<string>)
    ensures |r| == 2
    ensures forall i :: 0 <= i < 2 ==> (IsFrame(r[i]) <==> NoLineBreak(channel))
  {
    HelpCommandsHasNoLineBreak();
    HelpIdiomHasNoLineBreak();
    [Privmsg(channel, HelpCommands), Privmsg(channel, HelpIdiom)]
  }

  /** The line answering "version". */
  function VersionLine(channel: string): (r: string)
    ensures IsFrame(r) <==> NoLineBreak(channel)
  {
    VersionTextHasNoLineBreak();
    Privmsg(channel, "Shelbot version " + Version + ".")
  }

  /** The reply to "query" and each line of "topten": one protocol line, for
      any score, exactly when the channel and the handle hold no line break. */
  function ScoreLine(channel: string, handle: string, n: int): (r: string)
    ensures IsFrame(r) <==> NoLineBreak(channel) && NoLineBreak(handle)
  {
    var d := IntToDecimal(n);
    DecimalHasNoLineBreak(n);
    NoLineBreakConcat("Karma for ", handle);
    NoLineBreakConcat("Karma for " + handle, " is ");
    NoLineBreakConcat("Karma for " + handle + " is ", d);
    NoLineBreakConcat("Karma for " + handle + " is " + d, ".");
    Privmsg(channel, "Karma for " + handle + " is " + d + ".")
  }

  /** The reply after an increment or a decrement, framed as ScoreLine is. */
  function ChangeLine(channel: string, handle: string, n: int): (r: string)
    ensures IsFrame(r) <==> NoLineBreak(channel) && NoLineBreak(handle)
  {
    var d := IntToDecimal(n);
    DecimalHasNoLineBreak(n);
    NoLineBreakConcat("Karma for ", handle);
    NoLineBreakConcat("Karma for " + handle, " now ");
    NoLineBreakConcat("Karma for " + handle + " now ", d);
    Privmsg(channel, "Karma for " + handle + " now " + d)
  }

  /** One ScoreLine per pair, in the pairs' order. */
  function TopTenLines(channel: string, r: seq<Pair>): (out: seq<string>)
    ensures |out| == |r|
    ensures forall i :: 0 <= i < |r| ==> out[i] == ScoreLine(channel, r[i].key, r[i].value)
  {
    if r == [] then [] else [ScoreLine(channel, r[0].key, r[0].value)] + TopTenLines(channel, r[1..])
  }

  /** Writing the lines for one more pair appends that pair's line. */
  lemma {:induction false} TopTenLinesSnoc(channel: string, r: seq<Pair>, x: Pair)
    ensures TopTenLines(channel, r + [x]) == TopTenLines(channel, r) + [ScoreLine(channel, x.key, x.value)]
    decreases |r|
  {
    if r != [] {
      assert (r + [x])[1..] == r[1..] + [x];
      TopTenLinesSnoc(channel, r[1..], x);
    }
  }

  lemma AllSpaceCRLF()
    ensures AllSpace(CRLF)
  {
  }

  lemma UnwordsCons(w: string, ws: seq<string>)
    requires ws != []
    ensures Unwords([w] + ws) == w + " " + Unwords(ws)
  {
    assert ([w] + ws)[1..] == ws;
  }

  lemma ColonWord(w: string)
    requires IsWord(w)
    ensures IsWord(":" + w)
  {
    assert forall i :: 1 <= i < |":" + w| ==> (":" + w)[i] == w[i - 1];
  }

  lemma UserLineFields(nick: string, user: string)
    requires IsWord(nick) && IsWord(user)
    ensures Fields("USER " + nick + " 8 * :" + user + CRLF) == ["USER", nick, "8", "*", ":" + user]
  {
    AllSpaceCRLF();
    ColonWord(user);
    var u := ["USER", nick, "8", "*", ":" + user];
    UnwordsCons("*", [":" + user]);
    UnwordsCons("8", ["*", ":" + user]);
    UnwordsCons(nick, ["8", "*", ":" + user]);
    UnwordsCons("USER", [nick, "8", "*", ":" + user]);
    assert "USER " + nick + " 8 * :" + user + CRLF == Unwords(u) + CRLF;
    FieldsUnwords(u, CRLF);
  }

  lemma CommandLineFields(verb: string, arg: string)
    requires IsWord(verb) && IsWord(arg)
    ensures Fields(verb + " " + arg + CRLF) == [verb, arg]
  {
    AllSpaceCRLF();
    UnwordsCons(verb, [arg]);
    FieldsUnwords([verb, arg], CRLF);
  }

  /** The first three handshake lines, tokenised as the server reads them,
      carry the nickname, user name and channel as whole fields. */
  lemma HandshakeFields(nick: string, user: string, channel: string)
    requires IsWord(nick) && IsWord(user) && IsWord(channel)
    ensures var h := Handshake(nick, user, channel);
      && Fields(h[0]) == ["USER", nick, "8", "*", ":" + user]
      && Fields(h[1]) == ["NICK", nick]
      && Fields(h[2]) == ["JOIN", channel]
  {
    HandshakeLines(nick, user, channel);
    UserLineFields(nick, user);
    CommandLineFields("NICK", nick);
    CommandLineFields("JOIN", channel);
  }

  lemma HandshakeLines(nick: string, user: string, channel: string)
    ensures var h := Handshake(nick, user, channel);
      && h[0] == "USER " + nick + " 8 * :" + user + CRLF
      && h[1] == "NICK" + " " + nick + CRLF
      && h[2] == "JOIN" + " " + channel + CRLF
  {
  }

  predicate NoLineBreak(s: string) {
    forall i :: 0 <= i < |s| ==> s[i] != '\r' && s[i] != '\n'
  }

  /** Exactly one protocol line: CRLF at the end and nowhere else. */
  predicate IsFrame(line: string) {
    |line| >= 2 && line[|line| - 2..] == CRLF && NoLineBreak(line[..|line| - 2])
  }

  lemma NoLineBreakConcat(a: string, b: string)
    ensures NoLineBreak(a + b) <==> NoLineBreak(a) && NoLineBreak(b)
  {
    if NoLineBreak(a + b) {
      assert forall i :: 0 <= i < |a| ==> a[i] == (a + b)[i];
      assert forall j :: 0 <= j < |b| ==> b[j] == (a + b)[j + |a|];
    }
    assert forall i :: |a| <= i < |a + b| ==> (a + b)[i] == b[i - |a|];
  }

  lemma FrameOf(body: string)
    ensures IsFrame(body + CRLF) <==> NoLineBreak(body)
  {
    assert (body + CRLF)[..|body|] == body;
    assert (body + CRLF)[|body|..] == CRLF;
  }

  /** A field never holds CR or LF: both are white space to the tokeniser. */
  lemma WordHasNoLineBreak(w: string)
    requires IsWord(w)
    ensures NoLineBreak(w)
  {
  }

  lemma NoLineBreakOfThree(a: string, b: string, c: string)
    requires NoLineBreak(a) && NoLineBreak(b) && NoLineBreak(c)
    ensures NoLineBreak(a + b + c)
  {
    NoLineBreakConcat(a, b);
    NoLineBreakConcat(a + b, c);
  }

  lemma HelpCommandsHasNoLineBreak()
    ensures NoLineBreak(HelpCommands)
  {
    var a, b, c := "Shelbot commands available: ", "\"help\", \"version\", ", "\"query item\".";
    assert NoLineBreak(a);
    assert NoLineBreak(b);
    assert NoLineBreak(c);
    NoLineBreakOfThree(a, b, c);
  }

  lemma HelpIdiomHasNoLineBreak()
    ensures NoLineBreak(HelpIdiom)
  {
    var a, b, c := "Karma can be incremented ", "idiomatically: ", "\"foo++\" and \"bar--\".";
    assert NoLineBreak(a);
    assert NoLineBreak(b);
    assert NoLineBreak(c);
    NoLineBreakOfThree(a, b, c);
  }

  lemma VersionTextHasNoLineBreak()
    ensures NoLineBreak("Shelbot version " + Version + ".")
  {
    NoLineBreakOfThree("Shelbot version ", Version, ".");
  }

  lemma GreetingHasNoLineBreak()
    ensures NoLineBreak(Greeting)
  {
    var a, b := "Shelbot version ", " reporting for duty.";
    assert NoLineBreak(b);
    NoLineBreakOfThree(a, Version, b);
  }

  lemma DecimalHasNoLineBreak(n: int)
    ensures NoLineBreak(IntToDecimal(n))
  {
    IntToDecimalRoundTrip(n);
  }
}
