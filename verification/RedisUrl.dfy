/**
 The stored Redis URL: splitting it, putting it together and replacing its endpoint. The text
 functions split and compose character by character; the controller works with the address a text
 stands for, and replacing the endpoint in the text is proved to replace it in the address.
 */
module RedisUrl {
  import opened Wrappers
  import opened Text

  /** `netloc` is everything between "//" and the path: user information, host and port. */
  datatype Url = Url(scheme: string, netloc: string, path: string, query: string, fragment: string)

  type PortNumber = n: nat | n < 65536

  datatype Port = NoPort | Port(number: PortNumber) | BadPort

  function LowerChar(c: char): char {
    if 'A' <= c <= 'Z' then (c as int - 'A' as int + 'a' as int) as char else c
  }

  function Lower(s: string): (r: string)
    ensures |r| == |s| && forall i :: 0 <= i < |s| ==> r[i] == LowerChar(s[i])
  {
    if s == "" then "" else [LowerChar(s[0])] + Lower(s[1..])
  }

  predicate IsDelimiter(c: char) { c == '/' || c == '?' || c == '#' }

  predicate Plain(s: string) { forall i :: 0 <= i < |s| ==> !IsDelimiter(s[i]) }

  /** Where the network location ends. */
  function NetlocEnd(s: string): (i: nat)
    ensures i <= |s| && Plain(s[..i]) && (i < |s| ==> IsDelimiter(s[i]))
  {
    if s == "" || IsDelimiter(s[0]) then 0
    else
      assert s[..1 + NetlocEnd(s[1..])] == [s[0]] + s[1..][..NetlocEnd(s[1..])];
      1 + NetlocEnd(s[1..])
  }

  /** Only redis and rediss URLs are accepted. */
  function Split(s: string): Option<Url> {
    var colon := Find(s, ':');
    var scheme := Lower(s[..colon]);
    if colon == |s| || !(scheme == "redis" || scheme == "rediss") then None
    else
      var rest := s[colon + 1..];
      var (netloc, tail) :=
        if "//" <= rest then var end := NetlocEnd(rest[2..]); (rest[2..][..end], rest[2..][end..]) else ("", rest);
      Some(SplitTail(scheme, netloc, tail))
  }

  function SplitTail(scheme: string, netloc: string, tail: string): Url {
    var hash := Find(tail, '#');
    var (body, fragment) := (tail[..hash], if hash < |tail| then tail[hash + 1..] else "");
    var mark := Find(body, '?');
    Url(scheme, netloc, body[..mark], if mark < |body| then body[mark + 1..] else "", fragment)
  }

  function Rooted(path: string): string { if path != "" && path[0] != '/' then "/" + path else path }

  function Marked(mark: char, part: string): string { if part == "" then "" else [mark] + part }

  /** Putting a URL with a network location together; empty queries and fragments leave no mark. */
  function Compose(u: Url): string {
    u.scheme + ":" + ("//" + (u.netloc + (Rooted(u.path) + Marked('?', u.query) + Marked('#', u.fragment))))
  }

  function UserInfo(netloc: string): string {
    var at := FindLast(netloc, '@');
    if at.None? then "" else netloc[..at.value + 1]
  }

  function HostInfo(netloc: string): string {
    var at := FindLast(netloc, '@');
    if at.None? then netloc else netloc[at.value + 1..]
  }

  function PortOf(netloc: string): Port {
    var info := HostInfo(netloc);
    var colon := Find(info, ':');
    if colon == |info| || colon + 1 == |info| then NoPort
    else
      var text := info[colon + 1..];
      if AllDigits(text) && Value(text) < 65536 then Port(Value(text)) else BadPort
  }

  /** The port to use: a missing or zero port means the configured one. */
  function EffectivePort(p: Port, fallback: nat): nat { if p.Port? && p.number != 0 then p.number else fallback }

  /** The host in lower case; a zone after '%' keeps its case. */
  function HostnameOf(netloc: string): string {
    var info := HostInfo(netloc);
    var host := info[..Find(info, ':')];
    var zone := Find(host, '%');
    Lower(host[..zone]) + host[zone..]
  }

  /** What the parts of a readable URL text say. */
  datatype Address = Address(
    scheme: string, userInfo: string, host: string, port: Port, path: string, query: string, fragment: string)

  function AddressOf(url: string): Option<Address> {
    match Split(url)
    case None => None
    case Some(u) =>
      Some(Address(u.scheme, UserInfo(u.netloc), HostnameOf(u.netloc), PortOf(u.netloc), u.path, u.query, u.fragment))
  }

  function WithEndpoint(url: string, endpoint: string, port: nat): Option<string> {
    var u := Split(url);
    if u.None? || PortOf(u.value.netloc).BadPort? then None
    else Some(Compose(u.value.(netloc := NewNetloc(u.value.netloc, endpoint, port))))
  }

  function NewNetloc(netloc: string, endpoint: string, port: nat): string {
    UserInfo(netloc) + endpoint + ":" + Print(EffectivePort(PortOf(netloc), port))
  }

  // ---------------------------------------------------------------- addresses

  /** The URL can be read and its endpoint replaced. */
  predicate Usable(a: Option<Address>) { a.Some? && !a.value.port.BadPort? }

  function PortFor(number: nat): Port { if number < 65536 then Port(number) else BadPort }

  function Readdressed(a: Address, endpoint: string, port: nat): Address {
    a.(host := Lower(endpoint), port := PortFor(EffectivePort(a.port, port)), path := Rooted(a.path))
  }

  /** The stored URL already names this endpoint and the configured port. */
  predicate PointsAt(a: Option<Address>, endpoint: string, port: nat) {
    Usable(a) && a.value.host == endpoint && EffectivePort(a.value.port, port) == port
  }

  predicate NoCapitals(s: string) { forall i :: 0 <= i < |s| ==> !('A' <= s[i] <= 'Z') }

  /** The host of an address is in lower case unless it carries a zone. */
  predicate Canonical(a: Option<Address>) {
    a.Some? ==> '%' in a.value.host || NoCapitals(a.value.host)
  }

  // ---------------------------------------------------------------- laws

  predicate HostChar(c: char) {
    'a' <= c <= 'z' || 'A' <= c <= 'Z' || '0' <= c <= '9' || c == '-' || c == '.' || c == '_'
  }

  predicate ValidHost(h: string) { h != "" && forall i :: 0 <= i < |h| ==> HostChar(h[i]) }

  predicate ValidPort(port: nat) { 0 < port < 65536 }

  predicate WellFormed(u: Url) {
    && (u.scheme == "redis" || u.scheme == "rediss")
    && Plain(u.netloc) && u.netloc != "" && Rooted(u.path) == u.path
    && '?' !in u.path && '#' !in u.path && '#' !in u.query
  }

  lemma NetlocEndIn(netloc: string, tail: string)
    requires Plain(netloc) && (tail == "" || IsDelimiter(tail[0]))
    ensures NetlocEnd(netloc + tail) == |netloc|
  {
    var s := netloc + tail;
    assert forall k :: 0 <= k < |netloc| ==> s[k] == netloc[k];
    assert tail != "" ==> s[|netloc|] == tail[0];
    assert forall k :: 0 <= k < NetlocEnd(s) ==> s[..NetlocEnd(s)][k] == s[k];
  }

  lemma CutAt(head: string, c: char, part: string)
    requires c !in head
    ensures var s := head + Marked(c, part);
      Find(s, c) <= |s| && s[..Find(s, c)] == head && (if Find(s, c) < |s| then s[Find(s, c) + 1..] else "") == part
  {
    hide Find;
    var s := head + Marked(c, part);
    if part == "" {
      assert s == head;
      FindNone(s, c);
    } else {
      assert s == head + [c] + part;
      FindIn(head, c, part);
    }
  }

  lemma MarkedLacks(head: string, mark: char, part: string, c: char)
    requires c !in head && c !in part && c != mark
    ensures c !in head + Marked(mark, part)
  {
  }

  lemma SplitTailOfParts(scheme: string, netloc: string, path: string, query: string, fragment: string)
    requires '?' !in path && '#' !in path && '#' !in query
    ensures SplitTail(scheme, netloc, path + Marked('?', query) + Marked('#', fragment))
            == Url(scheme, netloc, path, query, fragment)
  {
    hide Find, Marked;
    CutAt(path, '?', query);
    MarkedLacks(path, '?', query, '#');
    CutAt(path + Marked('?', query), '#', fragment);
  }

  lemma {:induction false} LowerKeepsLower(s: string)
    requires forall i :: 0 <= i < |s| ==> LowerChar(s[i]) == s[i]
    ensures Lower(s) == s
  {
  }

  /** Putting together and splitting are inverse on well-formed parts. */
  lemma SplitOfCompose(u: Url)
    requires WellFormed(u)
    ensures Split(Compose(u)) == Some(u)
  {
    hide SplitTail, NetlocEnd, Lower, Find;
    var tail := u.path + Marked('?', u.query) + Marked('#', u.fragment);
    var rest := "//" + (u.netloc + tail);
    var s := u.scheme + ":" + rest;
    assert s == u.scheme + [':'] + rest;
    FindIn(u.scheme, ':', rest);
    assert s[..|u.scheme|] == u.scheme && s[|u.scheme| + 1..] == rest;
    LowerKeepsLower(u.scheme);
    assert rest[2..] == u.netloc + tail;
    NetlocEndIn(u.netloc, tail);
    assert (u.netloc + tail)[..|u.netloc|] == u.netloc && (u.netloc + tail)[|u.netloc|..] == tail;
    SplitTailOfParts(u.scheme, u.netloc, u.path, u.query, u.fragment);
  }

  // ---------------------------------------------------------------- replacing the endpoint

  lemma SplitParts(url: string)
    requires Split(url).Some?
    ensures var u := Split(url).value;
      (u.scheme == "redis" || u.scheme == "rediss") && Plain(u.netloc)
      && '?' !in u.path && '#' !in u.path && '#' !in u.query
  {
    var rest := url[Find(url, ':') + 1..];
    var tail := if "//" <= rest then rest[2..][NetlocEnd(rest[2..])..] else rest;
    var body := tail[..Find(tail, '#')];
    var mark := Find(body, '?');
    assert forall c :: c in body[..mark] ==> c in body;
    assert mark < |body| ==> forall c :: c in body[mark + 1..] ==> c in body;
  }

  lemma HostInfoIsPlain(host: string, digits: string)
    requires ValidHost(host) && AllDigits(digits)
    ensures Plain(host + ":" + digits) && '@' !in host + ":" + digits
  {
    var info := host + ":" + digits;
    assert forall i :: 0 <= i < |info| ==> info[i] in host || info[i] in digits || info[i] == ':';
  }

  lemma NetlocOfParts(netloc: string, info: string)
    requires Plain(netloc) && Plain(info) && '@' !in info && info != ""
    ensures var made := UserInfo(netloc) + info;
      Plain(made) && made != "" && UserInfo(made) == UserInfo(netloc) && HostInfo(made) == info
  {
    HostInfoOfParts(netloc, info, UserInfo(netloc) + info);
  }

  lemma NewNetlocParts(netloc: string, endpoint: string, port: nat)
    requires Plain(netloc) && ValidHost(endpoint)
    ensures var made := NewNetloc(netloc, endpoint, port);
      && Plain(made) && made != ""
      && UserInfo(made) == UserInfo(netloc)
      && HostInfo(made) == endpoint + ":" + Print(EffectivePort(PortOf(netloc), port))
  {
    var digits := Print(EffectivePort(PortOf(netloc), port));
    HostInfoIsPlain(endpoint, digits);
    NetlocOfParts(netloc, endpoint + ":" + digits);
    assert UserInfo(netloc) + endpoint + ":" + digits == UserInfo(netloc) + (endpoint + ":" + digits);
  }

  lemma HostAndPort(netloc: string, host: string, port: nat)
    requires ValidHost(host) && HostInfo(netloc) == host + ":" + Print(port)
    ensures HostnameOf(netloc) == Lower(host)
    ensures PortOf(netloc) == if port < 65536 then Port(port) else BadPort
  {
    var info := HostInfo(netloc);
    assert info == host + [':'] + Print(port);
    FindIn(host, ':', Print(port));
    assert info[..|host|] == host && info[|host| + 1..] == Print(port);
    assert Find(host, '%') == |host| && host[..|host|] == host && host[|host|..] == "";
    ValueOfPrint(port);
  }

  lemma HostInfoOfParts(netloc: string, info: string, made: string)
    requires '@' !in info && made == UserInfo(netloc) + info
    ensures UserInfo(made) == UserInfo(netloc) && HostInfo(made) == info
  {
    var at := FindLast(netloc, '@');
    if at.Some? {
      assert UserInfo(netloc) == netloc[..at.value] + ['@'];
      FindLastIn(netloc[..at.value], '@', info);
    } else {
      assert made == info;
    }
  }

  lemma ComposeRooted(u: Url)
    ensures Compose(u.(path := Rooted(u.path))) == Compose(u)
  {
  }

  lemma SplitOfRewritten(u: Url, netloc: string)
    requires (u.scheme == "redis" || u.scheme == "rediss") && Plain(netloc) && netloc != ""
    requires '?' !in u.path && '#' !in u.path && '#' !in u.query
    ensures Split(Compose(u.(netloc := netloc))) == Some(u.(netloc := netloc, path := Rooted(u.path)))
  {
    hide Split, Find;
    var made := u.(netloc := netloc, path := Rooted(u.path));
    assert forall c :: c in Rooted(u.path) ==> c in u.path || c == '/';
    SplitOfCompose(made);
    ComposeRooted(u.(netloc := netloc));
  }

  /**
   Replacing the endpoint in the text succeeds on every usable URL and replaces it in the address:
   scheme, user information, query and fragment stay, and so does the path, rooted if it was not.
   */
  lemma RewriteReaddresses(url: string, endpoint: string, port: nat)
    requires ValidHost(endpoint)
    ensures WithEndpoint(url, endpoint, port).Some? <==> Usable(AddressOf(url))
    ensures Usable(AddressOf(url)) ==>
              AddressOf(WithEndpoint(url, endpoint, port).value) == Some(Readdressed(AddressOf(url).value, endpoint, port))
  {
    hide Split, Find, Plain, HostnameOf, PortOf, NewNetloc, Compose, Rooted, UserInfo, HostInfo;
    if Usable(AddressOf(url)) {
      var u := Split(url).value;
      SplitParts(url);
      NewNetlocParts(u.netloc, endpoint, port);
      HostAndPort(NewNetloc(u.netloc, endpoint, port), endpoint, EffectivePort(PortOf(u.netloc), port));
      SplitOfRewritten(u, NewNetloc(u.netloc, endpoint, port));
    }
  }

  lemma SameNetlocTwice(netloc: string, endpoint: string, port: nat, made: string)
    requires UserInfo(made) == UserInfo(netloc) && ValidPort(port)
    requires PortOf(made) == Port(EffectivePort(PortOf(netloc), port))
    ensures NewNetloc(made, endpoint, port) == NewNetloc(netloc, endpoint, port)
  {
  }

  /** Replacing the endpoint again does not change the text. */
  lemma RewriteIdempotent(url: string, endpoint: string, port: nat)
    requires Usable(AddressOf(url)) && ValidHost(endpoint) && ValidPort(port)
    ensures var once := WithEndpoint(url, endpoint, port);
      once.Some? && WithEndpoint(once.value, endpoint, port) == once
  {
    hide Find, Plain, HostnameOf, PortOf, NewNetloc, Compose, Rooted, UserInfo, HostInfo;
    var u := Split(url).value;
    SplitParts(url);
    NewNetlocParts(u.netloc, endpoint, port);
    var netloc := NewNetloc(u.netloc, endpoint, port);
    HostAndPort(netloc, endpoint, EffectivePort(PortOf(u.netloc), port));
    SplitOfRewritten(u, netloc);
    SameNetlocTwice(u.netloc, endpoint, port, netloc);
    ComposeRooted(u.(netloc := netloc));
  }

  lemma {:induction false} LowerHasNoCapitals(s: string)
    ensures NoCapitals(Lower(s))
    ensures Lower(s) == s <==> NoCapitals(s)
  {
    if NoCapitals(s) { LowerKeepsLower(s); }
  }

  /** Every text has a canonical address. */
  lemma AddressesAreCanonical(url: string)
    ensures Canonical(AddressOf(url))
  {
    hide Split, PortOf, UserInfo, HostInfo;
    if Split(url).Some? {
      var info := HostInfo(Split(url).value.netloc);
      var host := info[..Find(info, ':')];
      var zone := Find(host, '%');
      LowerHasNoCapitals(host[..zone]);
      if zone < |host| { assert (Lower(host[..zone]) + host[zone..])[zone] == '%'; }
    }
  }

  /** An address that points at the cache has the cache's endpoint as its host. */
  lemma PointsAtHost(a: Option<Address>, endpoint: string, port: nat)
    requires PointsAt(a, endpoint, port) && Canonical(a) && ValidHost(endpoint)
    ensures a.value.host == Lower(endpoint)
  {
    LowerHasNoCapitals(endpoint);
  }

  /**
   A replaced endpoint is recognized exactly when it is written in lower case and the URL did not
   carry a port of its own other than the configured one; otherwise the match fails for good and
   every wake writes the parameter again.
   */
  lemma RewriteMatchesExactlyWhen(url: string, endpoint: string, port: nat)
    requires Usable(AddressOf(url)) && ValidHost(endpoint) && ValidPort(port)
    ensures WithEndpoint(url, endpoint, port).Some?
    ensures PointsAt(AddressOf(WithEndpoint(url, endpoint, port).value), endpoint, port)
            <==> NoCapitals(endpoint) && EffectivePort(AddressOf(url).value.port, port) == port
  {
    hide AddressOf, WithEndpoint;
    RewriteReaddresses(url, endpoint, port);
    LowerHasNoCapitals(endpoint);
  }

  // ---------------------------------------------------------------- the rewrite on text

  function Optional(mark: string, part: Option<string>): string { if part.Some? then mark + part.value else "" }

  /** A URL written out; a present query or fragment may be empty. */
  function UrlText(scheme: string, user: Option<string>, host: string, port: Option<nat>,
                   path: string, query: Option<string>, fragment: Option<string>): string {
    scheme + "://" + (NetlocText(user, host, port) + TailText(path, query, fragment))
  }

  function NetlocText(user: Option<string>, host: string, port: Option<nat>): string {
    (if user.Some? then user.value + "@" else "") + InfoText(host, port)
  }

  function TailText(path: string, query: Option<string>, fragment: Option<string>): string {
    path + Optional("?", query) + Optional("#", fragment)
  }

  function NonEmpty(part: Option<string>): Option<string> { if part == Some("") then None else part }

  predicate Lacks(s: string, marks: string) { forall i :: 0 <= i < |s| ==> s[i] !in marks }

  /** The parts are those the text is made of: no mark occurs inside an earlier part. */
  predicate Parts(scheme: string, user: Option<string>, host: string, path: string, query: Option<string>) {
    && (scheme == "redis" || scheme == "rediss")
    && (user.Some? ==> Lacks(user.value, "/?#")) && Lacks(host, "/?#@:")
    && Lacks(path, "?#") && (query.Some? ==> Lacks(query.value, "#"))
  }

  lemma OptionalCut(head: string, c: char, part: Option<string>)
    requires c !in head
    ensures var s := head + Optional([c], part);
      Find(s, c) <= |s| && s[..Find(s, c)] == head
      && (if Find(s, c) < |s| then s[Find(s, c) + 1..] else "") == (if part.Some? then part.value else "")
  {
    hide Find;
    if part.Some? {
      assert head + Optional([c], part) == head + [c] + part.value;
      FindIn(head, c, part.value);
    } else {
      assert head + Optional([c], part) == head;
      FindNone(head, c);
    }
  }

  lemma TailSplits(scheme: string, netloc: string, path: string, query: Option<string>, fragment: Option<string>)
    requires Lacks(path, "?#") && (query.Some? ==> Lacks(query.value, "#"))
    ensures SplitTail(scheme, netloc, TailText(path, query, fragment))
            == Url(scheme, netloc, path, if query.Some? then query.value else "", if fragment.Some? then fragment.value else "")
  {
    hide Find, Optional, Lacks;
    LacksEach(path, query);
    OptionalCut(path, '?', query);
    OptionalCut(path + Optional("?", query), '#', fragment);
  }

  lemma LacksEach(path: string, query: Option<string>)
    requires Lacks(path, "?#") && (query.Some? ==> Lacks(query.value, "#"))
    ensures '?' !in path && '#' !in path + Optional("?", query)
  {
    assert forall i :: 0 <= i < |path| ==> path[i] != '?' && path[i] != '#';
    if query.Some? { assert forall i :: 0 <= i < |query.value| ==> query.value[i] != '#'; }
  }

  lemma NetlocSplits(scheme: string, netloc: string, tail: string)
    requires (scheme == "redis" || scheme == "rediss") && Plain(netloc) && (tail == "" || IsDelimiter(tail[0]))
    ensures Split(scheme + "://" + (netloc + tail)) == Some(SplitTail(scheme, netloc, tail))
  {
    hide SplitTail, NetlocEnd, Lower, Find;
    var rest := "//" + (netloc + tail);
    var s := scheme + "://" + (netloc + tail);
    assert s == scheme + [':'] + rest;
    FindIn(scheme, ':', rest);
    assert s[..|scheme|] == scheme && s[|scheme| + 1..] == rest;
    LowerKeepsLower(scheme);
    assert rest[2..] == netloc + tail;
    NetlocEndIn(netloc, tail);
    assert (netloc + tail)[..|netloc|] == netloc && (netloc + tail)[|netloc|..] == tail;
  }

  function InfoText(host: string, port: Option<nat>): string {
    host + if port.Some? then ":" + Print(port.value) else ""
  }

  /** What is read from a network location written out. */
  lemma NetlocReads(user: Option<string>, host: string, port: Option<nat>)
    requires Lacks(host, "/?#@:")
    ensures var netloc := NetlocText(user, host, port);
      && UserInfo(netloc) == (if user.Some? then user.value + "@" else "")
      && PortOf(netloc) == (if port.None? then NoPort else if port.value < 65536 then Port(port.value) else BadPort)
  {
    hide InfoText, UserInfo, HostInfo, Find;
    InfoReads(host, port);
    UserReads(user, InfoText(host, port));
  }

  lemma UserReads(user: Option<string>, info: string)
    requires '@' !in info
    ensures var netloc := (if user.Some? then user.value + "@" else "") + info;
      UserInfo(netloc) == (if user.Some? then user.value + "@" else "") && HostInfo(netloc) == info
  {
    hide FindLast;
    if user.Some? {
      var netloc := user.value + "@" + info;
      assert netloc == user.value + ['@'] + info;
      FindLastIn(user.value, '@', info);
      assert netloc[..|user.value| + 1] == user.value + "@" && netloc[|user.value| + 1..] == info;
    } else {
      assert "" + info == info;
    }
  }

  lemma InfoReads(host: string, port: Option<nat>)
    requires Lacks(host, "/?#@:")
    ensures var info := InfoText(host, port);
      && '@' !in info && info[..Find(info, ':')] == host
      && (if port.None? then Find(info, ':') == |info|
          else Find(info, ':') + 1 < |info| && info[Find(info, ':') + 1..] == Print(port.value)
               && AllDigits(Print(port.value)) && Value(Print(port.value)) == port.value)
  {
    hide Find, Print, Value;
    var info := InfoText(host, port);
    if port.Some? {
      var digits := Print(port.value);
      assert info == host + [':'] + digits;
      assert forall k :: 0 <= k < |info| ==> info[k] in host || info[k] == ':' || info[k] in digits;
      FindIn(host, ':', digits);
      ValueOfPrint(port.value);
    } else {
      assert info == host;
      FindNone(host, ':');
    }
  }

  lemma NetlocTextIsPlain(user: Option<string>, host: string, port: Option<nat>)
    requires (user.Some? ==> Lacks(user.value, "/?#")) && Lacks(host, "/?#@:")
    ensures Plain(NetlocText(user, host, port))
  {
    hide Print;
    var netloc := NetlocText(user, host, port);
    assert forall k :: 0 <= k < |netloc| ==>
      || (user.Some? && netloc[k] in user.value) || netloc[k] == '@' || netloc[k] in host
      || netloc[k] == ':' || (port.Some? && netloc[k] in Print(port.value));
  }

  /**
   Replacing the endpoint in a URL: scheme, user information, path, query and fragment are written
   as they were, the host is the endpoint, and the port is the URL's own unless that is missing or
   zero. A question mark or number sign with nothing after it is dropped; a port out of range raises.
   */
  lemma EndpointReplacedInText(scheme: string, user: Option<string>, host: string, port: Option<nat>,
                               path: string, query: Option<string>, fragment: Option<string>,
                               endpoint: string, fallback: nat)
    requires Parts(scheme, user, host, path, query) && (path == "" || path[0] == '/')
    ensures WithEndpoint(UrlText(scheme, user, host, port, path, query, fragment), endpoint, fallback)
            == if port.Some? && port.value >= 65536 then None
               else Some(UrlText(scheme, user, endpoint, Some(if port.Some? && port.value > 0 then port.value else fallback),
                                 path, NonEmpty(query), NonEmpty(fragment)))
  {
    hide Split, SplitTail, UserInfo, HostInfo, PortOf, Print, Lacks, NetlocText, TailText, Compose, NewNetloc;
    var netloc := NetlocText(user, host, port);
    TextSplits(scheme, user, host, port, path, query, fragment);
    NetlocReads(user, host, port);
    var number := if port.Some? && port.value > 0 then port.value else fallback;
    if port.None? || port.value < 65536 { NetlocReplaced(user, host, port, endpoint, fallback); }
    Composed(scheme, NetlocText(user, endpoint, Some(number)), path, query, fragment);
  }

  lemma NetlocReplaced(user: Option<string>, host: string, port: Option<nat>, endpoint: string, fallback: nat)
    requires Lacks(host, "/?#@:") && (port.Some? ==> port.value < 65536)
    ensures NewNetloc(NetlocText(user, host, port), endpoint, fallback)
            == NetlocText(user, endpoint, Some(if port.Some? && port.value > 0 then port.value else fallback))
  {
    hide UserInfo, PortOf, Print;
    NetlocReads(user, host, port);
  }

  lemma TextSplits(scheme: string, user: Option<string>, host: string, port: Option<nat>,
                   path: string, query: Option<string>, fragment: Option<string>)
    requires Parts(scheme, user, host, path, query) && (path == "" || path[0] == '/')
    ensures Split(UrlText(scheme, user, host, port, path, query, fragment))
            == Some(Url(scheme, NetlocText(user, host, port), path, if query.Some? then query.value else "",
                        if fragment.Some? then fragment.value else ""))
  {
    hide Split, SplitTail, Lacks, NetlocText, TailText;
    NetlocTextIsPlain(user, host, port);
    TailBegins(path, query, fragment);
    NetlocSplits(scheme, NetlocText(user, host, port), TailText(path, query, fragment));
    TailSplits(scheme, NetlocText(user, host, port), path, query, fragment);
  }

  lemma TailBegins(path: string, query: Option<string>, fragment: Option<string>)
    requires path == "" || path[0] == '/'
    ensures var tail := TailText(path, query, fragment);
      tail == "" || IsDelimiter(tail[0])
  {
  }

  lemma Composed(scheme: string, netloc: string, path: string, query: Option<string>, fragment: Option<string>)
    ensures Compose(Url(scheme, netloc, path, if query.Some? then query.value else "",
                        if fragment.Some? then fragment.value else ""))
            == scheme + "://" + (netloc + TailText(Rooted(path), NonEmpty(query), NonEmpty(fragment)))
  {
  }

  /** The address read from a URL written out. */
  lemma AddressOfText(scheme: string, user: Option<string>, host: string, port: Option<nat>,
                      path: string, query: Option<string>, fragment: Option<string>)
    requires Parts(scheme, user, host, path, query) && (path == "" || path[0] == '/') && '%' !in host
    ensures AddressOf(UrlText(scheme, user, host, port, path, query, fragment))
            == Some(Address(scheme, if user.Some? then user.value + "@" else "", Lower(host),
                            if port.None? then NoPort else if port.value < 65536 then Port(port.value) else BadPort,
                            path, if query.Some? then query.value else "", if fragment.Some? then fragment.value else ""))
  {
    hide Split, UserInfo, PortOf, Print, Lacks, NetlocText, HostnameOf;
    TextSplits(scheme, user, host, port, path, query, fragment);
    NetlocReads(user, host, port);
    HostReads(user, host, port);
  }

  lemma HostReads(user: Option<string>, host: string, port: Option<nat>)
    requires Lacks(host, "/?#@:") && '%' !in host
    ensures HostnameOf(NetlocText(user, host, port)) == Lower(host)
  {
    hide InfoText, UserInfo, HostInfo, Find;
    InfoReads(host, port);
    UserReads(user, InfoText(host, port));
    FindNone(host, '%');
    assert host[..|host|] == host && host[|host|..] == "";
  }

  /** A URL without a network location gets one: its path is rooted and the port is the configured one. */
  lemma EndpointGivenToText(scheme: string, path: string, query: Option<string>, fragment: Option<string>,
                            endpoint: string, fallback: nat)
    requires Parts(scheme, None, "", path, query) && !("//" <= path)
    ensures WithEndpoint(scheme + ":" + TailText(path, query, fragment), endpoint, fallback)
            == Some(UrlText(scheme, None, endpoint, Some(fallback),
                            if path == "" || path[0] == '/' then path else "/" + path,
                            NonEmpty(query), NonEmpty(fragment)))
  {
    hide Split, SplitTail, Print, Lacks, TailText, NewNetloc, PortOf, Compose;
    TailIsBare(path, query, fragment);
    BareSplits(scheme, TailText(path, query, fragment));
    TailSplits(scheme, "", path, query, fragment);
    EmptyNetloc(endpoint, fallback);
    Composed(scheme, NetlocText(None, endpoint, Some(fallback)), path, query, fragment);
  }

  lemma TailIsBare(path: string, query: Option<string>, fragment: Option<string>)
    requires !("//" <= path)
    ensures !("//" <= TailText(path, query, fragment))
  {
    DoubleSlash(path);
    DoubleSlash(TailText(path, query, fragment));
  }

  lemma DoubleSlash(s: string)
    ensures "//" <= s <==> |s| >= 2 && s[0] == '/' && s[1] == '/'
  {
    if |s| >= 2 { assert s[..2] == [s[0], s[1]]; }
  }

  lemma BareSplits(scheme: string, tail: string)
    requires (scheme == "redis" || scheme == "rediss") && !("//" <= tail)
    ensures Split(scheme + ":" + tail) == Some(SplitTail(scheme, "", tail))
  {
    hide SplitTail, Lower, Find;
    var s := scheme + ":" + tail;
    assert s == scheme + [':'] + tail;
    FindIn(scheme, ':', tail);
    assert s[..|scheme|] == scheme && s[|scheme| + 1..] == tail;
    LowerKeepsLower(scheme);
  }

  lemma EmptyNetloc(endpoint: string, fallback: nat)
    ensures PortOf("") == NoPort && NewNetloc("", endpoint, fallback) == NetlocText(None, endpoint, Some(fallback))
  {
    hide Print;
  }
}
