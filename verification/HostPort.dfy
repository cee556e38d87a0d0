/**
 net.SplitHostPort and net.JoinHostPort, and when one undoes the other.
 */
module HostPort {
  import opened Common

  /** The first position of c, or the length of s. */
  function Index(s: string, c: char): (i: nat)
    ensures i <= |s|
    ensures i < |s| ==> s[i] == c
    ensures forall j :: 0 <= j < i ==> s[j] != c
  {
    if s == [] || s[0] == c then 0
    else
      var i := Index(s[1..], c);
      assert forall j :: 1 <= j < 1 + i ==> s[j] == s[1..][j - 1];
      1 + i
  }

  /** One more than the last position of c, or 0. */
  function AfterLast(s: string, c: char): (i: nat)
    ensures i <= |s|
    ensures i > 0 ==> s[i - 1] == c
    ensures forall j :: i <= j < |s| ==> s[j] != c
  {
    if s == [] then 0
    else if s[|s| - 1] == c then |s|
    else AfterLast(s[..|s| - 1], c)
  }

  predicate Lacks(s: string, c: char) {
    c !in s
  }

  predicate NoBrackets(s: string) {
    Lacks(s, '[') && Lacks(s, ']')
  }

  /** A port as SplitHostPort returns one: nothing after the last colon may be a bracket. */
  predicate PortLike(s: string) {
    Lacks(s, ':') && NoBrackets(s)
  }

  /** net.SplitHostPort; None is its error. */
  function SplitHostPort(s: string): Option<(string, string)> {
    if AfterLast(s, ':') == 0 then None
    else
      var i := AfterLast(s, ':') - 1;
      if s[0] == '[' then
        var end := Index(s, ']');
        if end == |s| || end + 1 != i then None
        else if !Lacks(s[1..], '[') || !Lacks(s[end + 1..], ']') then None
        else Some((s[1..end], s[i + 1..]))
      else
        if !Lacks(s[..i], ':') || !Lacks(s, '[') || !Lacks(s, ']') then None
        else Some((s[..i], s[i + 1..]))
  }

  function Bracketed(host: string, port: string): string {
    "[" + (host + ("]" + (":" + port)))
  }

  /** net.JoinHostPort */
  function JoinHostPort(host: string, port: string): string {
    if Lacks(host, ':') then host + (":" + port) else Bracketed(host, port)
  }

  lemma LastAt(a: string, c: char, b: string)
    requires Lacks(b, c)
    ensures var s := a + ([c] + b); AfterLast(s, c) == |a| + 1 && s[..|a|] == a && s[|a| + 1..] == b
  {
    var s := a + ([c] + b);
    assert s[|a|] == c;
    assert forall j :: |a| < j < |s| ==> s[j] == b[j - |a| - 1] && b[j - |a| - 1] in b;
  }

  lemma FirstAt(a: string, c: char, b: string)
    requires Lacks(a, c)
    ensures var s := a + ([c] + b); Index(s, c) == |a| && s[..|a|] == a && s[|a| + 1..] == b
  {
    var s := a + ([c] + b);
    assert s[|a|] == c;
    assert forall j :: 0 <= j < |a| ==> s[j] == a[j] && a[j] in a;
  }

  /** A string around one of its positions. */
  lemma Around(s: string, i: nat)
    requires i < |s|
    ensures s == s[..i] + ([s[i]] + s[i + 1..])
    ensures forall c :: c in s <==> c in s[..i] || c == s[i] || c in s[i + 1..]
  {
  }

  lemma LacksAfterLast(s: string, c: char)
    ensures Lacks(s[AfterLast(s, c)..], c)
  {
  }

  /** What is split off: a host and a port without brackets, written "host:port" or "[host]:port". */
  lemma SplitShapes(s: string)
    requires SplitHostPort(s).Some?
    ensures var (host, port) := SplitHostPort(s).value;
            && NoBrackets(host) && PortLike(port)
            && (s == Bracketed(host, port) || (Lacks(host, ':') && s == host + (":" + port)))
  {
    LacksAfterLast(s, ':');
    if s[0] == '[' {
      BracketedShape(s);
    } else {
      Around(s, AfterLast(s, ':') - 1);
    }
  }

  lemma BracketedShape(s: string)
    requires SplitHostPort(s).Some? && s[0] == '['
    ensures var (host, port) := SplitHostPort(s).value;
            NoBrackets(host) && NoBrackets(port) && s == Bracketed(host, port)
  {
  }

  lemma PlainRoundTrip(host: string, port: string)
    requires PortLike(port) && NoBrackets(host) && Lacks(host, ':')
    ensures SplitHostPort(JoinHostPort(host, port)) == Some((host, port))
  {
    LastAt(host, ':', port);
    assert JoinHostPort(host, port) == host + ([':'] + port);
  }

  lemma BracketedColon(host: string, port: string)
    requires Lacks(port, ':')
    ensures var s := Bracketed(host, port); AfterLast(s, ':') == |host| + 3 && s[|host| + 3..] == port
  {
    var before := "[" + (host + "]");
    assert Bracketed(host, port) == before + ([':'] + port);
    LastAt(before, ':', port);
  }

  lemma BracketedEnd(host: string, port: string)
    requires NoBrackets(host)
    ensures var s := Bracketed(host, port);
            Index(s, ']') == |host| + 1 && s[1..|host| + 1] == host && s[|host| + 2..] == ":" + port
  {
    var open := "[" + host;
    assert Bracketed(host, port) == open + ([']'] + (":" + port));
    FirstAt(open, ']', ":" + port);
    assert open[1..] == host;
  }

  lemma BracketedRest(host: string, port: string)
    requires NoBrackets(host) && NoBrackets(port)
    ensures Lacks(Bracketed(host, port)[1..], '[')
  {
  }

  lemma BracketedRoundTrip(host: string, port: string)
    requires PortLike(port) && NoBrackets(host) && !Lacks(host, ':')
    ensures SplitHostPort(JoinHostPort(host, port)) == Some((host, port))
  {
    BracketedColon(host, port);
    BracketedEnd(host, port);
    BracketedRest(host, port);
  }

  /** Only a host with a colon is put in brackets. */
  lemma JoinedText(host: string, port: string)
    ensures JoinHostPort(host, port) == if ':' in host then "[" + (host + ("]:" + port)) else host + (":" + port)
  {
    assert "]" + (":" + port) == "]:" + port;
  }

  /** Splitting undoes joining exactly for hosts without brackets. */
  lemma JoinThenSplit(host: string, port: string)
    requires PortLike(port)
    ensures SplitHostPort(JoinHostPort(host, port)) == Some((host, port)) <==> NoBrackets(host)
  {
    if NoBrackets(host) {
      if Lacks(host, ':') {
        PlainRoundTrip(host, port);
      } else {
        BracketedRoundTrip(host, port);
      }
    } else if SplitHostPort(JoinHostPort(host, port)).Some? {
      SplitShapes(JoinHostPort(host, port));
    }
  }

  /** A bracketed address without a port is no host:port, and putting it in brackets again does not help. */
  lemma BareBracketsDoNotSplit()
    ensures SplitHostPort("[::1]").None? && !NoBrackets("[::1]")
    ensures JoinHostPort("[::1]", "0") == "[[::1]]:0"
    ensures SplitHostPort("[[::1]]:0").None? && !NoBrackets("[[::1]]:0")
  {
    var bare := "[::1]";
    assert bare[0] == '[' && bare[1] == ':';
    FirstAt("[::1", ']', "");
    assert bare == "[::1" + ([']'] + "");
    DoubleBracketsDoNotSplit();
    assert Bracketed(bare, "0") == "[[::1]]:0";
  }

  lemma DoubleBracketsDoNotSplit()
    ensures SplitHostPort("[[::1]]:0").None? && !NoBrackets("[[::1]]:0")
  {
    var twice := "[[::1]]:0";
    assert twice[0] == '[';
    FirstAt("[[::1", ']', "]:0");
    assert twice == "[[::1" + ([']'] + "]:0");
    LastAt("[[::1]]", ':', "0");
    assert twice == "[[::1]]" + ([':'] + "0");
  }
}
