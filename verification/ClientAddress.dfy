/**
 The address the gateway takes a request to come from, and the rewriting that fixes it
 for everything downstream.
 */
module ClientAddress {
  import opened Common
  import opened ContentRange
  import opened HostPort

  // ----- addresses -----

  predicate IpChar(c: char) {
    '0' <= c <= '9' || 'a' <= c <= 'f' || 'A' <= c <= 'F' || c == '.' || c == ':'
  }

  predicate IpAlphabet(s: string) {
    s != "" && forall c :: c in s ==> IpChar(c)
  }

  type IpText = s: string | IpAlphabet(s) witness "0"

  /**
   IP literals are decided by `decide`, any function at all that gives an accepted literal its
   canonical text (net.ParseIP, then String); only the alphabet of literals is fixed.  A trusted
   CIDR is a test on that text.
   */
  datatype Net = Net(decide: string -> Option<IpText>, cidrs: seq<IpText -> bool>)

  function ParseIp(net: Net, s: string): Option<IpText> {
    if IpAlphabet(s) then net.decide(s) else None
  }

  predicate TrustsText(net: Net, ip: IpText) {
    exists i :: 0 <= i < |net.cidrs| && net.cidrs[i](ip)
  }

  predicate TrustsIp(net: Net, s: string) {
    ParseIp(net, s).Some? && TrustsText(net, ParseIp(net, s).value)
  }

  /** isTrustedIP: the loop over the configured networks. */
  method IsTrustedIp(net: Net, s: string) returns (trusted: bool)
    ensures trusted <==> TrustsIp(net, s)
  {
    var ip := ParseIp(net, s);
    if ip.None? {
      return false;
    }
    var i := 0;
    while i < |net.cidrs|
      invariant 0 <= i <= |net.cidrs|
      invariant forall j :: 0 <= j < i ==> !net.cidrs[j](ip.value)
    {
      if net.cidrs[i](ip.value) {
        return true;
      }
      i := i + 1;
    }
    return false;
  }

  // ----- hops -----

  /** strings.Split(s, ",") */
  function SplitCommas(s: string): (parts: seq<string>)
    ensures parts != []
  {
    if s == [] then [""]
    else
      var rest := SplitCommas(s[1..]);
      if s[0] == ',' then [""] + rest else [[s[0]] + rest[0]] + rest[1..]
  }

  function Hop(net: Net, part: string): Option<IpText> {
    ParseIp(net, TrimSpace(part))
  }

  predicate Untrusted(net: Net, part: string) {
    Hop(net, part).Some? && !TrustsText(net, Hop(net, part).value)
  }

  predicate RightmostUntrustedAt(net: Net, parts: seq<string>, i: int) {
    0 <= i < |parts| && Untrusted(net, parts[i]) && forall j :: i < j < |parts| ==> !Untrusted(net, parts[j])
  }

  predicate RightmostValidAt(net: Net, parts: seq<string>, i: int) {
    0 <= i < |parts| && Hop(net, parts[i]).Some? && forall j :: i < j < |parts| ==> Hop(net, parts[j]).None?
  }

  predicate NoneUntrusted(net: Net, parts: seq<string>) {
    forall i :: 0 <= i < |parts| ==> !Untrusted(net, parts[i])
  }

  /**
   rightmostUntrusted from the right end: `fallback` is the first valid hop met so far.  The
   name "leftmost" in the code notwithstanding, that is the rightmost valid one.
   */
  function FromTheRight(net: Net, parts: seq<string>, fallback: string): string {
    if parts == [] then fallback
    else
      var rest := parts[..|parts| - 1];
      var ip := Hop(net, parts[|parts| - 1]);
      if ip.None? then FromTheRight(net, rest, fallback)
      else if !TrustsText(net, ip.value) then ip.value
      else FromTheRight(net, rest, if fallback == "" then ip.value else fallback)
  }

  /** The loop, from the last part to the first. */
  method RightmostUntrusted(net: Net, header: string) returns (address: string)
    ensures address == FromTheRight(net, SplitCommas(header), "")
  {
    var parts := SplitCommas(header);
    var leftmost := "";
    var i := |parts|;
    assert parts[..i] == parts;
    while i > 0
      invariant 0 <= i <= |parts|
      invariant FromTheRight(net, parts[..i], leftmost) == FromTheRight(net, parts, "")
    {
      i := i - 1;
      assert parts[..i + 1][..i] == parts[..i];
      var p := TrimSpace(parts[i]);
      var ip := ParseIp(net, p);
      if ip.Some? {
        var trusted := IsTrustedIp(net, p);
        if !trusted {
          return ip.value;
        }
        if leftmost == "" {
          leftmost := ip.value;
        }
      }
    }
    return leftmost;
  }

  /** The rightmost untrusted hop is taken. */
  lemma {:induction false} UntrustedHopTaken(net: Net, parts: seq<string>, fallback: string, i: int)
    requires RightmostUntrustedAt(net, parts, i)
    ensures FromTheRight(net, parts, fallback) == Hop(net, parts[i]).value
    decreases |parts|
  {
    var last := |parts| - 1;
    var ip := Hop(net, parts[last]);
    if i < last {
      var rest := parts[..last];
      assert forall j :: 0 <= j < last ==> rest[j] == parts[j];
      UntrustedHopTaken(net, rest, if ip.None? || fallback != "" then fallback else ip.value, i);
    }
  }

  /** Without an untrusted hop, what was met first from the right is kept. */
  lemma {:induction false} FallbackKept(net: Net, parts: seq<string>, fallback: string)
    requires NoneUntrusted(net, parts)
    requires fallback != "" || forall i :: 0 <= i < |parts| ==> Hop(net, parts[i]).None?
    ensures FromTheRight(net, parts, fallback) == fallback
    decreases |parts|
  {
    if parts != [] {
      var rest := parts[..|parts| - 1];
      assert forall j :: 0 <= j < |rest| ==> rest[j] == parts[j];
      FallbackKept(net, rest, fallback);
    }
  }

  lemma {:induction false} ValidHopTaken(net: Net, parts: seq<string>, i: int)
    requires NoneUntrusted(net, parts) && RightmostValidAt(net, parts, i)
    ensures FromTheRight(net, parts, "") == Hop(net, parts[i]).value
    decreases |parts|
  {
    var last := |parts| - 1;
    var rest := parts[..last];
    assert forall j :: 0 <= j < last ==> rest[j] == parts[j];
    if i < last {
      ValidHopTaken(net, rest, i);
    } else {
      FallbackKept(net, rest, Hop(net, parts[last]).value);
    }
  }

  /**
   Which hop is taken: the rightmost untrusted one; failing that the rightmost valid one
   (a comment in the source says the left one); failing that none.
   */
  lemma HopTaken(net: Net, parts: seq<string>)
    ensures forall i :: RightmostUntrustedAt(net, parts, i) ==> FromTheRight(net, parts, "") == Hop(net, parts[i]).value
    ensures forall i :: NoneUntrusted(net, parts) && RightmostValidAt(net, parts, i) ==>
              FromTheRight(net, parts, "") == Hop(net, parts[i]).value
    ensures (forall i :: 0 <= i < |parts| ==> Hop(net, parts[i]).None?) ==> FromTheRight(net, parts, "") == ""
  {
    forall i | RightmostUntrustedAt(net, parts, i) ensures FromTheRight(net, parts, "") == Hop(net, parts[i]).value {
      UntrustedHopTaken(net, parts, "", i);
    }
    forall i | NoneUntrusted(net, parts) && RightmostValidAt(net, parts, i)
      ensures FromTheRight(net, parts, "") == Hop(net, parts[i]).value
    {
      ValidHopTaken(net, parts, i);
    }
    if forall i :: 0 <= i < |parts| ==> Hop(net, parts[i]).None? {
      FallbackKept(net, parts, "");
    }
  }

  /** A hop to the right decides; whatever stands to its left is not looked at. */
  lemma {:induction false} LeftDoesNotMatter(net: Net, extra: seq<string>, parts: seq<string>, fallback: string, i: nat)
    requires i < |parts| && Untrusted(net, parts[i])
    ensures FromTheRight(net, extra + parts, fallback) == FromTheRight(net, parts, fallback)
    decreases |parts|
  {
    var last := |parts| - 1;
    var all := extra + parts;
    assert all[|all| - 1] == parts[last] && all[..|all| - 1] == extra + parts[..last];
    var ip := Hop(net, parts[last]);
    if !Untrusted(net, parts[last]) {
      var next := if ip.None? || fallback != "" then fallback else ip.value;
      LeftDoesNotMatter(net, extra, parts[..last], next, i);
    }
  }

  /** Prepending "extra," to a header puts extra's parts in front. */
  lemma {:induction false} SplitAfterPrepend(extra: string, header: string)
    ensures SplitCommas(extra + ("," + header)) == SplitCommas(extra) + SplitCommas(header)
  {
    var s := extra + ("," + header);
    if extra == [] {
      assert s[1..] == header;
    } else {
      assert s[1..] == extra[1..] + ("," + header);
      SplitAfterPrepend(extra[1..], header);
    }
  }

  lemma {:induction false} NoCommaOnePart(s: string)
    requires ',' !in s
    ensures SplitCommas(s) == [s]
  {
    if s != [] {
      assert s[0] in s;
      NoCommaOnePart(s[1..]);
      assert [s[0]] + s[1..] == s;
    }
  }

  // ----- the request -----

  /** Peer address and the two headers; an absent header reads as the empty string. */
  datatype Request = Request(remoteAddr: string, forwardedFor: string, realIp: string)

  function RemoteHost(r: Request): string {
    if SplitHostPort(r.remoteAddr).None? then r.remoteAddr else SplitHostPort(r.remoteAddr).value.0
  }

  function ClientIp(net: Net, r: Request): string {
    var peer := RemoteHost(r);
    var hop := if r.forwardedFor == "" then "" else FromTheRight(net, SplitCommas(r.forwardedFor), "");
    var header := TrimSpace(r.realIp);
    if !TrustsIp(net, peer) then peer
    else if hop != "" then hop
    else if header != "" && ParseIp(net, header).Some? then header
    else peer
  }

  /** The port kept by RealIP. */
  function PortOf(r: Request): string {
    var split := SplitHostPort(r.remoteAddr);
    if split.Some? && split.value.1 != "" then split.value.1 else "0"
  }

  /** RealIP: peer address and X-Real-IP both become the resolved address. */
  function Rewritten(net: Net, r: Request): Request {
    var ip := ClientIp(net, r);
    Request(JoinHostPort(ip, PortOf(r)), r.forwardedFor, ip)
  }

  class HttpRequest {
    var remoteAddr: string
    var forwardedFor: string
    var realIp: string

    function Contents(): Request
      reads this
    {
      Request(remoteAddr, forwardedFor, realIp)
    }

    constructor (r: Request)
      ensures Contents() == r
    {
      remoteAddr, forwardedFor, realIp := r.remoteAddr, r.forwardedFor, r.realIp;
    }

    method ResolveClient(net: Net) returns (address: string)
      ensures address == ClientIp(net, Contents())
    {
      var split := SplitHostPort(remoteAddr);
      var peer := if split.None? then remoteAddr else split.value.0;
      var trusted := IsTrustedIp(net, peer);
      if !trusted {
        return peer;
      }
      if forwardedFor != "" {
        var ip := RightmostUntrusted(net, forwardedFor);
        if ip != "" {
          return ip;
        }
      }
      var xri := TrimSpace(realIp);
      if xri != "" && ParseIp(net, xri).Some? {
        return xri;
      }
      return peer;
    }

    method RealIp(net: Net)
      modifies this
      ensures Contents() == Rewritten(net, old(Contents()))
    {
      var ip := ResolveClient(net);
      var port := "0";
      var split := SplitHostPort(remoteAddr);
      if split.Some? && split.value.1 != "" {
        port := split.value.1;
      }
      remoteAddr := JoinHostPort(ip, port);
      realIp := ip;
    }
  }

  // ----- which address -----

  /** s is an IP literal with canonical text ip. */
  ghost predicate LiteralOf(net: Net, s: string, ip: IpText) {
    IpAlphabet(s) && net.decide(s) == Some(ip)
  }

  /** One of the configured networks has it. */
  ghost predicate InNetworks(net: Net, ip: IpText) {
    exists i :: 0 <= i < |net.cidrs| && net.cidrs[i](ip)
  }

  ghost predicate TrustedPeer(net: Net, s: string) {
    exists ip :: LiteralOf(net, s, ip) && InNetworks(net, ip)
  }

  /** An entry of X-Forwarded-For, white space around it aside, is this literal. */
  ghost predicate EntryIs(net: Net, parts: seq<string>, i: int, ip: IpText) {
    0 <= i < |parts| && LiteralOf(net, TrimSpace(parts[i]), ip)
  }

  ghost predicate StrangerAt(net: Net, parts: seq<string>, i: int) {
    exists ip :: EntryIs(net, parts, i, ip) && !InNetworks(net, ip)
  }

  lemma StrangerIsUntrusted(net: Net, parts: seq<string>, i: int)
    requires 0 <= i < |parts|
    ensures StrangerAt(net, parts, i) <==> Untrusted(net, parts[i])
    ensures forall ip :: EntryIs(net, parts, i, ip) <==> Hop(net, parts[i]) == Some(ip)
  {
    if Untrusted(net, parts[i]) {
      assert EntryIs(net, parts, i, Hop(net, parts[i]).value);
    }
  }

  lemma TrustedPeerIsTrusted(net: Net, s: string)
    ensures TrustedPeer(net, s) <==> TrustsIp(net, s)
  {
    if TrustsIp(net, s) {
      assert LiteralOf(net, s, ParseIp(net, s).value);
    }
  }

  /**
   The address a request is taken to come from, over all peers, headers and networks.  A peer
   outside the networks is taken as it is.  Behind one inside, it is the rightmost entry of
   X-Forwarded-For that is a literal outside the networks; failing that the rightmost literal;
   failing that X-Real-IP if it is a literal; failing that the peer.
   */
  lemma ClientIpExactly(net: Net, r: Request)
    ensures var split := SplitHostPort(r.remoteAddr);
            var peer := if split.None? then r.remoteAddr else split.value.0;
            var parts := SplitCommas(r.forwardedFor);
            && (!TrustedPeer(net, peer) ==> ClientIp(net, r) == peer)
            && (TrustedPeer(net, peer) ==>
                  && (forall i, ip :: EntryIs(net, parts, i, ip) && StrangerAt(net, parts, i) && (forall j :: i < j ==> !StrangerAt(net, parts, j)) ==>
                        ClientIp(net, r) == ip)
                  && ((forall j :: !StrangerAt(net, parts, j)) ==>
                        forall i, ip :: EntryIs(net, parts, i, ip) && (forall j, other :: i < j ==> !EntryIs(net, parts, j, other)) ==>
                          ClientIp(net, r) == ip)
                  && ((forall j, other :: !EntryIs(net, parts, j, other)) ==>
                        ClientIp(net, r) == if exists ip :: LiteralOf(net, TrimSpace(r.realIp), ip) then TrimSpace(r.realIp) else peer))
  {
    var peer := RemoteHost(r);
    var parts := SplitCommas(r.forwardedFor);
    TrustedPeerIsTrusted(net, peer);
    forall i | 0 <= i < |parts|
      ensures StrangerAt(net, parts, i) <==> Untrusted(net, parts[i])
      ensures forall ip :: EntryIs(net, parts, i, ip) <==> Hop(net, parts[i]) == Some(ip)
    {
      StrangerIsUntrusted(net, parts, i);
    }
    HopTaken(net, parts);
    NoHeaderNoHop(net, r);
    if TrustedPeer(net, peer) {
      EntryDecides(net, r, parts);
      NoEntryDecides(net, r, parts);
    }
  }

  lemma NoHeaderNoHop(net: Net, r: Request)
    ensures r.forwardedFor == "" ==> FromTheRight(net, SplitCommas(r.forwardedFor), "") == ""
  {
    if r.forwardedFor == "" {
      assert SplitCommas("") == [""] && TrimSpace("") == "";
      assert Hop(net, "").None?;
    }
  }

  lemma EntryDecides(net: Net, r: Request, parts: seq<string>)
    requires TrustsIp(net, RemoteHost(r)) && parts == SplitCommas(r.forwardedFor)
    requires forall i :: 0 <= i < |parts| ==> (StrangerAt(net, parts, i) <==> Untrusted(net, parts[i]))
    requires forall i, ip :: 0 <= i < |parts| ==> (EntryIs(net, parts, i, ip) <==> Hop(net, parts[i]) == Some(ip))
    ensures forall i, ip :: EntryIs(net, parts, i, ip) && StrangerAt(net, parts, i) && (forall j :: i < j ==> !StrangerAt(net, parts, j)) ==>
              ClientIp(net, r) == ip
    ensures (forall j :: !StrangerAt(net, parts, j)) ==>
              forall i, ip :: EntryIs(net, parts, i, ip) && (forall j, other :: i < j ==> !EntryIs(net, parts, j, other)) ==>
                ClientIp(net, r) == ip
  {
    NoHeaderNoHop(net, r);
    forall i, ip | EntryIs(net, parts, i, ip) && StrangerAt(net, parts, i) && (forall j :: i < j ==> !StrangerAt(net, parts, j))
      ensures ClientIp(net, r) == ip
    {
      assert RightmostUntrustedAt(net, parts, i);
      UntrustedHopTaken(net, parts, "", i);
    }
    if forall j :: !StrangerAt(net, parts, j) {
      forall i, ip | EntryIs(net, parts, i, ip) && (forall j, other :: i < j ==> !EntryIs(net, parts, j, other))
        ensures ClientIp(net, r) == ip
      {
        forall j | i < j < |parts| ensures Hop(net, parts[j]).None? {
          assert forall other :: Hop(net, parts[j]) == Some(other) ==> EntryIs(net, parts, j, other);
        }
        ValidHopTaken(net, parts, i);
      }
    }
  }

  lemma NoEntryDecides(net: Net, r: Request, parts: seq<string>)
    requires TrustsIp(net, RemoteHost(r)) && parts == SplitCommas(r.forwardedFor)
    requires forall i, ip :: 0 <= i < |parts| ==> (EntryIs(net, parts, i, ip) <==> Hop(net, parts[i]) == Some(ip))
    ensures (forall j, other :: !EntryIs(net, parts, j, other)) ==>
              ClientIp(net, r) == if exists ip :: LiteralOf(net, TrimSpace(r.realIp), ip) then TrimSpace(r.realIp) else RemoteHost(r)
  {
    var header := TrimSpace(r.realIp);
    if forall j, other :: !EntryIs(net, parts, j, other) {
      forall j | 0 <= j < |parts| ensures Hop(net, parts[j]).None? {
        assert forall other :: Hop(net, parts[j]) == Some(other) ==> EntryIs(net, parts, j, other);
      }
      FallbackKept(net, parts, "");
      if ParseIp(net, header).Some? {
        assert LiteralOf(net, header, ParseIp(net, header).value);
      }
    }
  }

  // ----- main results -----

  lemma IpTextHasNoBrackets(s: string)
    requires IpAlphabet(s)
    ensures NoBrackets(s) && ',' !in s && TrimSpace(s) == s
  {
    assert s[0] in s && s[|s| - 1] in s;
  }

  lemma {:induction false} HopIsPlain(net: Net, parts: seq<string>, fallback: string)
    requires fallback == "" || IpAlphabet(fallback)
    ensures FromTheRight(net, parts, fallback) == "" || IpAlphabet(FromTheRight(net, parts, fallback))
  {
    if parts != [] {
      var ip := Hop(net, parts[|parts| - 1]);
      HopIsPlain(net, parts[..|parts| - 1], fallback);
      if ip.Some? {
        HopIsPlain(net, parts[..|parts| - 1], if fallback == "" then ip.value else fallback);
      }
    }
  }

  /** Unless it is an untrusted peer taken as it stands, the resolved address is an IP literal. */
  lemma ResolvedIsPlain(net: Net, r: Request)
    requires TrustsIp(net, RemoteHost(r))
    ensures IpAlphabet(ClientIp(net, r)) && NoBrackets(ClientIp(net, r))
  {
    HopIsPlain(net, SplitCommas(r.forwardedFor), "");
    IpTextHasNoBrackets(ClientIp(net, r));
  }

  lemma KeptPort(r: Request)
    ensures PortLike(PortOf(r))
  {
  }

  /** The peer address is host:port or [host]:port, or at least has no bracket in it. */
  predicate UsablePeer(r: Request) {
    SplitHostPort(r.remoteAddr).Some? || NoBrackets(r.remoteAddr)
  }

  /** What is resolved has a bracket in it exactly when the peer address is not usable. */
  lemma BracketsComeFromThePeer(net: Net, r: Request)
    ensures NoBrackets(ClientIp(net, r)) <==> UsablePeer(r)
  {
    if SplitHostPort(r.remoteAddr).Some? {
      SplitShapes(r.remoteAddr);
    }
    if TrustsIp(net, RemoteHost(r)) {
      ResolvedIsPlain(net, r);
      IpTextHasNoBrackets(RemoteHost(r));
    }
  }

  /**
   Resolution is stable: resolving the rewritten request gives the address it was
   rewritten to, so limiter key and X-Real-IP agree.  For all peers, trusted networks and
   headers that holds exactly when the peer address can be split or has no bracket; then the
   rewritten peer address is that address with the port it had, or 0.
   */
  lemma ResolutionIsStable(net: Net, r: Request)
    ensures ClientIp(net, Rewritten(net, r)) == ClientIp(net, r) <==> UsablePeer(r)
    ensures Rewritten(net, r).realIp == ClientIp(net, r) && Rewritten(net, r).forwardedFor == r.forwardedFor
    ensures UsablePeer(r) ==>
              var split := SplitHostPort(r.remoteAddr);
              SplitHostPort(Rewritten(net, r).remoteAddr) ==
              Some((ClientIp(net, r), if split.Some? && split.value.1 != "" then split.value.1 else "0"))
  {
    var ip := ClientIp(net, r);
    KeptPort(r);
    JoinThenSplit(ip, PortOf(r));
    BracketsComeFromThePeer(net, r);
    if NoBrackets(ip) {
      StableWithoutBrackets(net, r);
    } else {
      UnstableWithBrackets(net, r);
    }
  }

  /** A bracketed peer without a port is not usable: the second resolution reads "[[::1]]:0". */
  lemma BareBracketedPeer(net: Net, forwardedFor: string, realIp: string)
    ensures var r := Request("[::1]", forwardedFor, realIp);
            && !UsablePeer(r)
            && ClientIp(net, r) == "[::1]"
            && ClientIp(net, Rewritten(net, r)) == "[[::1]]:0"
  {
    BareBracketsDoNotSplit();
    NotALiteral(net, "[::1]");
    NotALiteral(net, "[[::1]]:0");
  }

  lemma NotALiteral(net: Net, s: string)
    requires !NoBrackets(s)
    ensures !TrustsIp(net, s)
  {
  }

  lemma StableWithoutBrackets(net: Net, r: Request)
    requires NoBrackets(ClientIp(net, r))
    requires SplitHostPort(JoinHostPort(ClientIp(net, r), PortOf(r))) == Some((ClientIp(net, r), PortOf(r)))
    ensures ClientIp(net, Rewritten(net, r)) == ClientIp(net, r)
  {
    var ip := ClientIp(net, r);
    if TrustsIp(net, RemoteHost(r)) {
      ResolvedIsPlain(net, r);
      IpTextHasNoBrackets(ip);
    }
  }

  lemma UnstableWithBrackets(net: Net, r: Request)
    requires !NoBrackets(ClientIp(net, r))
    ensures ClientIp(net, Rewritten(net, r)) != ClientIp(net, r)
  {
    var ip := ClientIp(net, r);
    var again := Rewritten(net, r);
    if TrustsIp(net, RemoteHost(again)) {
      ResolvedIsPlain(net, again);
    } else if SplitHostPort(again.remoteAddr).Some? {
      SplitShapes(again.remoteAddr);
    } else {
      assert |again.remoteAddr| > |ip|;
    }
  }

  /**
   A peer that is not trusted cannot pass for anyone else: whatever two headers it sends,
   everything downstream sees its own address, in X-Real-IP and when the rewritten request
   is resolved again.
   */
  lemma UntrustedPeerIsTakenAsIs(net: Net, r: Request, forwardedFor: string, realIp: string)
    requires !TrustsIp(net, RemoteHost(r)) && UsablePeer(r)
    ensures var seen := Rewritten(net, r.(forwardedFor := forwardedFor, realIp := realIp));
            && seen.realIp == RemoteHost(r)
            && seen.remoteAddr == Rewritten(net, r).remoteAddr
            && RemoteHost(seen) == RemoteHost(r)
            && ClientIp(net, seen) == RemoteHost(r)
  {
    var forged := r.(forwardedFor := forwardedFor, realIp := realIp);
    KeptPort(forged);
    BracketsComeFromThePeer(net, forged);
    JoinThenSplit(RemoteHost(r), PortOf(forged));
  }

  predicate HasUntrustedHop(net: Net, header: string) {
    exists i :: 0 <= i < |SplitCommas(header)| && Untrusted(net, SplitCommas(header)[i])
  }

  /** With an untrusted hop in X-Forwarded-For, nothing a client put in front of the list changes the result. */
  lemma PrependingChangesNothing(net: Net, r: Request, extra: string)
    requires HasUntrustedHop(net, r.forwardedFor)
    ensures ClientIp(net, r.(forwardedFor := extra + ("," + r.forwardedFor))) == ClientIp(net, r)
  {
    var parts := SplitCommas(r.forwardedFor);
    var i :| 0 <= i < |parts| && Untrusted(net, parts[i]);
    SplitAfterPrepend(extra, r.forwardedFor);
    LeftDoesNotMatter(net, SplitCommas(extra), parts, "", i);
    assert r.forwardedFor == "" ==> parts == [""];
    assert TrimSpace("") == "";
  }

  /** Without one, behind a trusted peer, a client that prepends an untrusted literal is taken for it. */
  lemma PrependingDecides(net: Net, r: Request, extra: string)
    requires TrustsIp(net, RemoteHost(r)) && !HasUntrustedHop(net, r.forwardedFor)
    requires IpAlphabet(extra) && Untrusted(net, extra)
    ensures ClientIp(net, r.(forwardedFor := extra + ("," + r.forwardedFor))) == Hop(net, extra).value
  {
    IpTextHasNoBrackets(extra);
    NoCommaOnePart(extra);
    SplitAfterPrepend(extra, r.forwardedFor);
    var parts := [extra] + SplitCommas(r.forwardedFor);
    assert forall j :: 1 <= j < |parts| ==> parts[j] == SplitCommas(r.forwardedFor)[j - 1];
    UntrustedHopTaken(net, parts, "", 0);
  }
}
