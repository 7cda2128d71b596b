/** The connection URI: which endpoints are accepted, and what a URI says about its configuration. */
module ConnectionUri {
  import opened Text

  datatype Config = Config(
    username: string,
    password: string,
    clusterEndpoint: string,
    database: string,
    replicaSet: string,
    directConnection: bool)

  datatype Result = Ok(uri: string) | InvalidAddress(endpoint: string)

  const SCHEME := "mongodb://"

  // ---------------------------------------------------------------------------------------
  // Endpoints

  /** The language of the regular expression ^(mongodb://)?[^:/]+(:\d+)?$. */
  ghost predicate InEndpointLanguage(s: string) {
    exists scheme, host, port :: EndpointParts(s, scheme, host, port)
  }

  predicate EndpointParts(s: string, scheme: string, host: string, port: string) {
    && s == scheme + host + port
    && (scheme == "" || scheme == "mongodb://")
    && HostParts(host, port)
  }

  predicate HostParts(host: string, port: string) {
    && host != "" && ':' !in host && '/' !in host
    && (port == "" || (|port| > 1 && port[0] == ':' && AllDigits(port[1..])))
  }

  /** strings.TrimPrefix(s, "mongodb://"). */
  function TrimScheme(s: string): string {
    if SCHEME <= s then s[|SCHEME|..] else s
  }

  /** A host without ':' or '/', and perhaps a port. */
  predicate IsHostPort(s: string) {
    var i := IndexOf(s, ':');
    && i > 0 && '/' !in s[..i]
    && (i == |s| || (i + 1 < |s| && AllDigits(s[i + 1..])))
  }

  predicate MatchesEndpoint(s: string) {
    IsHostPort(TrimScheme(s))
  }

  lemma TrimSchemeOf(rest: string)
    ensures TrimScheme(SCHEME + rest) == rest
  {
  }

  lemma SplitHost(s: string)
    requires IsHostPort(s)
    ensures HostParts(s[..IndexOf(s, ':')], s[IndexOf(s, ':')..])
  {
    var i := IndexOf(s, ':');
    if i < |s| {
      assert s[i..][1..] == s[i + 1..];
    }
  }

  lemma TrimmedIs(s: string, scheme: string, rest: string)
    requires scheme == (if SCHEME <= s then SCHEME else "") && rest == TrimScheme(s)
    ensures s == scheme + rest
  {
  }

  lemma MatchesInLanguage(s: string)
    requires MatchesEndpoint(s)
    ensures InEndpointLanguage(s)
  {
    var rest := TrimScheme(s);
    var i := IndexOf(rest, ':');
    var scheme := if SCHEME <= s then SCHEME else "";
    TrimmedIs(s, scheme, rest);
    SplitHost(rest);
    hide TrimScheme, IndexOf, HostParts;
    assert rest == rest[..i] + rest[i..];
    Regroup(scheme, rest[..i], rest[i..]);
    assert EndpointParts(s, scheme, rest[..i], rest[i..]);
  }

  lemma HostPortMatches(hostPort: string)
    requires IsHostPort(hostPort)
    ensures MatchesEndpoint(hostPort) && MatchesEndpoint(SCHEME + hostPort)
  {
    HostPortHasNoScheme(hostPort);
    TrimSchemeOf(hostPort);
  }

  lemma InLanguageMatches(s: string, scheme: string, host: string, port: string)
    requires EndpointParts(s, scheme, host, port)
    ensures MatchesEndpoint(s)
  {
    hide MatchesEndpoint, IsHostPort;
    HostAndPort(host, port);
    HostPortMatches(host + port);
    assert s == scheme + (host + port);
    if scheme == "" {
      assert s == host + port;
    }
  }

  /** The endpoint check accepts exactly the language of the regular expression. */
  lemma MatchesIffInLanguage(s: string)
    ensures MatchesEndpoint(s) <==> InEndpointLanguage(s)
  {
    if MatchesEndpoint(s) {
      MatchesInLanguage(s);
    } else if InEndpointLanguage(s) {
      var scheme, host, port :| EndpointParts(s, scheme, host, port);
      InLanguageMatches(s, scheme, host, port);
    }
  }

  lemma HostAndPort(host: string, port: string)
    requires HostParts(host, port)
    ensures IsHostPort(host + port)
  {
    if port == "" {
      assert host + port == host && host[..|host|] == host;
    } else {
      assert host + port == host + [':'] + port[1..];
      WithPort(host, port[1..]);
    }
  }

  lemma WithPort(host: string, digits: string)
    requires host != "" && ':' !in host && '/' !in host && digits != "" && AllDigits(digits)
    ensures IsHostPort(host + [':'] + digits)
  {
    IndexOfSplit(host, ':', digits);
    assert (host + [':'] + digits)[..|host|] == host;
    assert (host + [':'] + digits)[|host| + 1..] == digits;
  }

  lemma HostPortHasNoScheme(s: string)
    requires IsHostPort(s)
    ensures !(SCHEME <= s) && '/' !in s
  {
    var i := IndexOf(s, ':');
    if i < |s| {
      assert s == s[..i] + [':'] + s[i + 1..];
    }
    assert SCHEME[8] == '/';
  }

  // ---------------------------------------------------------------------------------------
  // The URI

  predicate HasCredentials(m: Config) {
    |m.password| > 0 && |m.username| > 0
  }

  /** The URI of an accepted configuration, as the templates print it. */
  function Uri(m: Config): string {
    var endpoint := TrimScheme(m.clusterEndpoint);
    (if HasCredentials(m) then SCHEME + m.username + ":" + m.password + "@" + endpoint + "/" + m.database
     else SCHEME + endpoint + "/" + m.database)
    + Query(m)
  }

  function Query(m: Config): string {
    if m.replicaSet == "" then "?directConnection=true"
    else if m.directConnection then REPLICA_SET + m.replicaSet + DIRECT
    else REPLICA_SET + m.replicaSet
  }

  const REPLICA_SET := "?replicaSet="
  const DIRECT := "&directConnection=true"

  method GetConnectionUri(m: Config) returns (r: Result)
    ensures r == if InEndpointLanguage(m.clusterEndpoint) then Ok(Uri(m)) else InvalidAddress(m.clusterEndpoint)
  {
    var endpoint := m.clusterEndpoint;
    MatchesIffInLanguage(endpoint);
    if !MatchesEndpoint(endpoint) {
      return InvalidAddress(endpoint);
    }
    endpoint := TrimScheme(endpoint);
    var connectionString;
    if HasCredentials(m) {
      connectionString := SCHEME + m.username + ":" + m.password + "@" + endpoint + "/" + m.database;
    } else {
      connectionString := SCHEME + endpoint + "/" + m.database;
    }
    var query;
    if m.replicaSet != "" {
      query := REPLICA_SET + m.replicaSet;
      if m.directConnection {
        query := query + DIRECT;
      }
    } else {
      query := "?directConnection=true";
    }
    return Ok(connectionString + query);
  }

  // ---------------------------------------------------------------------------------------
  // Reading it back

  /** What a URI keeps of a configuration. */
  datatype Normal = Normal(credentials: Credentials, endpoint: string, database: string, replication: Replication)

  datatype Credentials = NoCredentials | Credentials(username: string, password: string)

  datatype Replication = Replication(replicaSet: string, direct: bool)

  datatype Reading = NotMongo | Read(normal: Normal)

  function Normalise(m: Config): Normal {
    Normal(if m.username != "" && m.password != "" then Credentials(m.username, m.password) else NoCredentials,
           TrimScheme(m.clusterEndpoint), m.database,
           Replication(m.replicaSet, m.replicaSet == "" || m.directConnection))
  }

  /**
   * No part holds the delimiter that ends it: '/' ends the authority, and ':' and the last '@' divide
   * it (section 3.2 of RFC 3986); '?' begins the query (section 3.4), and '&' divides it.
   */
  predicate Clean(m: Config) {
    && (HasCredentials(m) ==> '/' !in m.username && ':' !in m.username && '/' !in m.password)
    && '@' !in TrimScheme(m.clusterEndpoint)
    && '?' !in m.database
    && '&' !in m.replicaSet
  }

  function From(s: string, i: int): string {
    if 0 <= i <= |s| then s[i..] else ""
  }

  function UpTo(s: string, i: int): string {
    if 0 <= i <= |s| then s[..i] else ""
  }

  function ParseAuthority(authority: string): (Credentials, string) {
    var at := LastIndexOf(authority, '@');
    if at < 0 then (NoCredentials, authority)
    else
      var userinfo := UpTo(authority, at);
      var colon := IndexOf(userinfo, ':');
      (Credentials(UpTo(userinfo, colon), From(userinfo, colon + 1)), From(authority, at + 1))
  }

  /** The value of the first option of a name, in a list of options name=value divided by '&', or "". */
  function OptionValue(options: string, name: string): string
    decreases |options|
  {
    var amp := IndexOf(options, '&');
    var first := UpTo(options, amp);
    var eq := IndexOf(first, '=');
    if UpTo(first, eq) == name then From(first, eq + 1)
    else if amp < |options| then OptionValue(options[amp + 1..], name)
    else ""
  }

  function ParseQuery(query: string): Replication {
    var options := From(query, 1);
    Replication(OptionValue(options, "replicaSet"), OptionValue(options, "directConnection") == "true")
  }

  /** Reads a URI: the authority up to the first '/', the database up to the first '?', and the query. */
  function Parse(uri: string): Reading {
    if !("mongodb://" <= uri) then NotMongo
    else
      var rest := From(uri, |"mongodb://"|);
      var slash := IndexOf(rest, '/');
      var (credentials, endpoint) := ParseAuthority(UpTo(rest, slash));
      var path := From(rest, slash + 1);
      var mark := IndexOf(path, '?');
      Read(Normal(credentials, endpoint, UpTo(path, mark), ParseQuery(From(path, mark))))
  }

  function Authority(m: Config): string {
    if HasCredentials(m) then m.username + ":" + m.password + "@" + TrimScheme(m.clusterEndpoint)
    else TrimScheme(m.clusterEndpoint)
  }

  lemma UriParts(m: Config)
    ensures Uri(m) == SCHEME + (Authority(m) + ['/'] + (m.database + Query(m)))
  {
    hide Query, TrimScheme;
    var front := m.username + ":" + m.password + "@" + TrimScheme(m.clusterEndpoint);
    assert SCHEME + m.username + ":" + m.password + "@" + TrimScheme(m.clusterEndpoint) == SCHEME + front;
    PartsRegroup(SCHEME, Authority(m), m.database, Query(m));
  }

  lemma PartsRegroup(scheme: string, authority: string, database: string, query: string)
    ensures scheme + authority + "/" + database + query == scheme + (authority + ['/'] + (database + query))
  {
  }

  lemma SplitFirst(before: string, c: char, after: string)
    requires c !in before
    ensures var s := before + [c] + after; var i := IndexOf(s, c);
            i == |before| && UpTo(s, i) == before && From(s, i) == [c] + after && From(s, i + 1) == after
  {
    IndexOfSplit(before, c, after);
  }

  lemma SplitLast(before: string, c: char, after: string)
    requires c !in after
    ensures var s := before + [c] + after; var i := LastIndexOf(s, c);
            i == |before| && UpTo(s, i) == before && From(s, i + 1) == after
  {
    LastIndexOfSplit(before, c, after);
  }

  lemma AuthorityReadsBack(m: Config)
    requires Clean(m) && MatchesEndpoint(m.clusterEndpoint)
    ensures '/' !in Authority(m)
    ensures ParseAuthority(Authority(m)) == (Normalise(m).credentials, Normalise(m).endpoint)
  {
    var endpoint := TrimScheme(m.clusterEndpoint);
    HostPortHasNoScheme(endpoint);
    if HasCredentials(m) {
      var userinfo := m.username + [':'] + m.password;
      assert Authority(m) == userinfo + ['@'] + endpoint;
      SplitLast(userinfo, '@', endpoint);
      SplitFirst(m.username, ':', m.password);
    }
  }

  lemma Regroup(a: string, b: string, c: string)
    ensures a + (b + c) == a + b + c
  {
  }

  lemma OneOption(name: string, value: string, asked: string)
    requires '&' !in name && '=' !in name && '&' !in value
    ensures OptionValue(name + ['='] + value, asked) == if asked == name then value else ""
  {
    var options := name + ['='] + value;
    assert forall i :: 0 <= i < |options| ==> options[i] in name || options[i] == '=' || options[i] in value;
    assert UpTo(options, |options|) == options;
    SplitFirst(name, '=', value);
  }

  lemma FirstOption(name: string, value: string, more: string, asked: string)
    requires '&' !in name && '=' !in name && '&' !in value
    ensures OptionValue(name + ['='] + value + ['&'] + more, asked) ==
            if asked == name then value else OptionValue(more, asked)
  {
    var first := name + ['='] + value;
    assert forall i :: 0 <= i < |first| ==> first[i] in name || first[i] == '=' || first[i] in value;
    SplitFirst(first, '&', more);
    SplitFirst(name, '=', value);
  }

  /** The options as they are printed. */
  function OptionsText(m: Config): string {
    if m.replicaSet == "" then "directConnection=true"
    else if m.directConnection then "replicaSet=" + m.replicaSet + "&directConnection=true"
    else "replicaSet=" + m.replicaSet
  }

  /** The whole text of a URI; the endpoint may have been given with its scheme. */
  lemma UriText(m: Config, endpoint: string)
    requires !("mongodb://" <= endpoint) && m.clusterEndpoint in {endpoint, "mongodb://" + endpoint}
    ensures var userinfo := if m.username == "" || m.password == "" then "" else m.username + ":" + m.password + "@";
            Uri(m) == "mongodb://" + (userinfo + endpoint) + "/" + (m.database + ("?" + OptionsText(m)))
  {
    TrimSchemeOf(endpoint);
    QueryText(m);
    assert TrimScheme(m.clusterEndpoint) == endpoint;
    hide Query, TrimScheme;
    UriParts(m);
    var userinfo := if m.username == "" || m.password == "" then "" else m.username + ":" + m.password + "@";
    assert userinfo == "" ==> userinfo + endpoint == endpoint;
    Regroup("mongodb://", userinfo + endpoint + ['/'], m.database + Query(m));
    Regroup("mongodb://", userinfo + endpoint, ['/']);
  }

  lemma QueryText(m: Config)
    ensures Query(m) == "?" + OptionsText(m)
  {
    assert REPLICA_SET == "?" + "replicaSet=";
    if m.replicaSet != "" {
      Regroup("?", "replicaSet=", m.replicaSet);
      Regroup("?", "replicaSet=" + m.replicaSet, "&directConnection=true");
    }
  }

  lemma OptionNames()
    ensures "directConnection=true" == "directConnection" + ['='] + "true"
    ensures "replicaSet=" == "replicaSet" + ['=']
    ensures "&directConnection=true" == ['&'] + ("directConnection" + ['='] + "true")
  {
  }

  lemma QueryOptions(m: Config)
    ensures From(Query(m), 1) ==
            if m.replicaSet == "" then "directConnection" + ['='] + "true"
            else if m.directConnection then
              "replicaSet" + ['='] + m.replicaSet + ['&'] + ("directConnection" + ['='] + "true")
            else "replicaSet" + ['='] + m.replicaSet
  {
    QueryText(m);
    assert From("?" + OptionsText(m), 1) == OptionsText(m);
    hide Query, From;
    OptionNames();
    if m.replicaSet != "" && m.directConnection {
      Regroup("replicaSet" + ['='] + m.replicaSet, ['&'], "directConnection" + ['='] + "true");
    }
  }

  lemma QueryReadsBack(m: Config)
    requires Clean(m)
    ensures ParseQuery(Query(m)) == Normalise(m).replication
  {
    var direct := "directConnection" + ['='] + "true";
    QueryOptions(m);
    hide Query, OptionValue;
    OneOption("directConnection", "true", "replicaSet");
    OneOption("directConnection", "true", "directConnection");
    if m.replicaSet != "" && m.directConnection {
      FirstOption("replicaSet", m.replicaSet, direct, "replicaSet");
      FirstOption("replicaSet", m.replicaSet, direct, "directConnection");
    } else if m.replicaSet != "" {
      OneOption("replicaSet", m.replicaSet, "replicaSet");
      OneOption("replicaSet", m.replicaSet, "directConnection");
    }
  }

  lemma PathReadsBack(m: Config)
    requires '?' !in m.database
    ensures var path := m.database + Query(m); var mark := IndexOf(path, '?');
            UpTo(path, mark) == m.database && From(path, mark) == Query(m)
  {
    assert Query(m) == ['?'] + Query(m)[1..];
    assert m.database + Query(m) == m.database + ['?'] + Query(m)[1..];
    SplitFirst(m.database, '?', Query(m)[1..]);
  }

  lemma CleanReadsBack(m: Config)
    requires Clean(m) && MatchesEndpoint(m.clusterEndpoint)
    ensures Parse(Uri(m)) == Read(Normalise(m))
  {
    var path := m.database + Query(m);
    UriParts(m);
    assert From(Uri(m), |SCHEME|) == Authority(m) + ['/'] + path;
    AuthorityReadsBack(m);
    SplitFirst(Authority(m), '/', path);
    PathReadsBack(m);
    QueryReadsBack(m);
  }

  /** A user information that reads as a name and a password is that name and that password. */
  lemma UserinfoIsOwn(userinfo: string, username: string, password: string)
    requires var colon := IndexOf(userinfo, ':');
             UpTo(userinfo, colon) == username && From(userinfo, colon + 1) == password && password != ""
    ensures userinfo == username + ":" + password && ':' !in username
  {
    var colon := IndexOf(userinfo, ':');
    assert userinfo == userinfo[..colon] + [':'] + userinfo[colon + 1..];
  }

  lemma SplitAt(s: string, i: nat)
    requires i < |s|
    ensures s == UpTo(s, i) + [s[i]] + From(s, i + 1)
  {
  }

  /** An authority that reads as m's is m's, and no delimiter is out of place in it. */
  lemma AuthorityIsOwn(m: Config, authority: string)
    requires ParseAuthority(authority) == (Normalise(m).credentials, Normalise(m).endpoint)
    ensures authority == Authority(m) && '@' !in TrimScheme(m.clusterEndpoint)
    ensures HasCredentials(m) ==> ':' !in m.username
  {
    var at := LastIndexOf(authority, '@');
    if at >= 0 {
      var userinfo, endpoint := UpTo(authority, at), From(authority, at + 1);
      assert '@' !in endpoint;
      hide TrimScheme, IndexOf, LastIndexOf, UpTo, From;
      SplitAt(authority, at);
      UserinfoIsOwn(userinfo, m.username, m.password);
      assert endpoint == TrimScheme(m.clusterEndpoint);
    }
  }

  lemma NoSlashInUserinfo(m: Config)
    requires HasCredentials(m) && '/' !in Authority(m)
    ensures '/' !in m.username && '/' !in m.password
  {
    var k := |m.username| + 1;
    assert Authority(m)[..|m.username|] == m.username;
    assert Authority(m)[k..k + |m.password|] == m.password;
  }

  lemma PathIsOwn(m: Config)
    requires var path := m.database + Query(m); UpTo(path, IndexOf(path, '?')) == m.database
    ensures '?' !in m.database
  {
  }

  /** The value that is read of an option has no '&'. */
  lemma FirstValue(name: string, rest: string)
    requires '&' !in name && '=' !in name
    ensures '&' !in OptionValue(name + ['='] + rest, name)
  {
    var options := name + ['='] + rest;
    var amp := IndexOf(options, '&');
    assert amp > |name| by {
      assert forall i :: 0 <= i < |name| ==> options[i] == name[i];
      assert options[|name|] == '=';
    }
    var first := options[..amp];
    assert first == name + ['='] + options[|name| + 1..amp];
    SplitFirst(name, '=', options[|name| + 1..amp]);
    assert forall i :: 0 <= i < amp ==> options[i] != '&';
  }

  lemma SetFirst(m: Config, more: string)
    requires m.replicaSet != ""
    requires more == if m.directConnection then ['&'] + ("directConnection" + ['='] + "true") else ""
    ensures From(Query(m), 1) == "replicaSet" + ['='] + (m.replicaSet + more)
  {
    QueryOptions(m);
    hide Query;
    Regroup("replicaSet" + ['='], m.replicaSet, more);
    Regroup("replicaSet" + ['='] + m.replicaSet, ['&'], "directConnection" + ['='] + "true");
  }

  lemma SetHasNoAmpersand(m: Config)
    requires m.replicaSet != ""
    ensures '&' !in OptionValue(From(Query(m), 1), "replicaSet")
  {
    var more := if m.directConnection then ['&'] + ("directConnection" + ['='] + "true") else "";
    SetFirst(m, more);
    NoDelimiters();
    hide Query, OptionValue, From;
    FirstValue("replicaSet", m.replicaSet + more);
  }

  lemma NoDelimiters()
    ensures '&' !in "replicaSet" && '=' !in "replicaSet"
  {
  }

  lemma QueryIsOwn(m: Config)
    requires ParseQuery(Query(m)) == Normalise(m).replication
    ensures '&' !in m.replicaSet
  {
    if m.replicaSet != "" {
      SetHasNoAmpersand(m);
      hide Query, OptionValue, From;
    }
  }

  lemma FirstSlash(authority: string, path: string, slash: nat)
    requires var rest := authority + ['/'] + path;
             slash == IndexOf(rest, '/') && UpTo(rest, slash) == authority
    ensures '/' !in authority && From(authority + ['/'] + path, slash + 1) == path
  {
    assert forall k :: 0 <= k < |authority| ==> (authority + ['/'] + path)[k] == authority[k];
  }

  lemma ReadsBackClean(m: Config)
    requires Parse(Uri(m)) == Read(Normalise(m))
    ensures Clean(m)
  {
    hide TrimScheme, Authority, Query, HasCredentials, ParseAuthority, ParseQuery, Uri;
    var path := m.database + Query(m);
    var rest := Authority(m) + ['/'] + path;
    UriParts(m);
    assert From(Uri(m), |SCHEME|) == rest;
    var slash := IndexOf(rest, '/');
    AuthorityIsOwn(m, UpTo(rest, slash));
    FirstSlash(Authority(m), path, slash);
    if HasCredentials(m) {
      NoSlashInUserinfo(m);
    }
    PathIsOwn(m);
    PathReadsBack(m);
    QueryIsOwn(m);
  }

  /** The URI of an accepted configuration reads back, but for unused credentials, if and only if it is clean. */
  lemma UriRoundTrip(m: Config)
    requires MatchesEndpoint(m.clusterEndpoint)
    ensures Parse(Uri(m)) == Read(Normalise(m)) <==> Clean(m)
  {
    if Clean(m) {
      CleanReadsBack(m);
    } else if Parse(Uri(m)) == Read(Normalise(m)) {
      ReadsBackClean(m);
    }
  }

  /**
   * An accepted configuration that shares the URI of a clean one is clean if and only if the two are
   * the same up to normalisation; so among clean ones the URI decides everything but unused credentials.
   */
  lemma UriInjective(m: Config, m': Config)
    requires Clean(m) && MatchesEndpoint(m.clusterEndpoint) && MatchesEndpoint(m'.clusterEndpoint)
    ensures Normalise(m) == Normalise(m') <==> Uri(m) == Uri(m') && Clean(m')
  {
    UriRoundTrip(m);
    UriRoundTrip(m');
    if Normalise(m) == Normalise(m') {
      assert Clean(m');
      UriParts(m);
      UriParts(m');
    }
  }

  /** An endpoint is accepted with the scheme if and only if without it, and the URI is the same. */
  lemma SchemeIsOptional(m: Config)
    requires !(SCHEME <= m.clusterEndpoint)
    ensures var m' := m.(clusterEndpoint := SCHEME + m.clusterEndpoint);
            && (InEndpointLanguage(m'.clusterEndpoint) <==> InEndpointLanguage(m.clusterEndpoint))
            && Uri(m') == Uri(m)
  {
    TrimSchemeOf(m.clusterEndpoint);
    MatchesIffInLanguage(m.clusterEndpoint);
    MatchesIffInLanguage(SCHEME + m.clusterEndpoint);
  }

  // ---------------------------------------------------------------------------------------
  // Each conjunct of Clean is needed: for each delimiter, a family of accepted configurations that
  // hold it and share their URI with another one. A configuration that is not clean may also have the
  // URI to itself; then the reader above misreads it.

  /** Two accepted configurations that are not the same up to normalisation but have one URI. */
  predicate Ambiguous(m: Config, m': Config) {
    && MatchesEndpoint(m.clusterEndpoint) && MatchesEndpoint(m'.clusterEndpoint)
    && Normalise(m) != Normalise(m') && Uri(m) == Uri(m')
  }

  lemma ColonInUsername(m: Config, user: string, more: string)
    requires MatchesEndpoint(m.clusterEndpoint) && user != "" && m.password != ""
    ensures Ambiguous(m.(username := user + ":" + more), m.(username := user, password := more + ":" + m.password))
  {
    Regroup(SCHEME, user + ":", more);
    Regroup(SCHEME, user, ":");
    Regroup(SCHEME + user + ":", more + ":", m.password);
    Regroup(SCHEME + user + ":", more, ":");
    assert |user + ":" + more| > |user|;
  }

  lemma AtInEndpoint(m: Config, host: string, more: string)
    requires HasCredentials(m) && IsHostPort(host) && IsHostPort(more + "@" + host)
    ensures Ambiguous(
              m.(clusterEndpoint := more + "@" + host),
              m.(clusterEndpoint := host, password := m.password + "@" + more))
  {
    HostPortHasNoScheme(host);
    HostPortHasNoScheme(more + "@" + host);
    var front := SCHEME + m.username + ":";
    Regroup(front + m.password + "@", more + "@", host);
    Regroup(front + m.password + "@", more, "@");
    Regroup(front, m.password + "@", more);
    Regroup(front, m.password, "@");
    assert |more + "@" + host| > |host|;
  }

  lemma SlashInPassword(m: Config, pass: string, host: string, more: string)
    requires MatchesEndpoint(m.clusterEndpoint) && m.username != "" && pass != "" && IsHostPort(host)
    ensures Ambiguous(
              m.(password := pass + "@" + host + "/" + more),
              m.(password := pass, clusterEndpoint := host,
                 database := more + "@" + TrimScheme(m.clusterEndpoint) + "/" + m.database))
  {
    HostPortHasNoScheme(host);
    var e := TrimScheme(m.clusterEndpoint);
    var front := SCHEME + m.username + ":";
    Regroup(front, pass + "@" + host + "/", more);
    Regroup(front, pass + "@" + host, "/");
    Regroup(front, pass + "@", host);
    Regroup(front, pass, "@");
    PathRegroup(front + pass + "@" + host + "/", more, "@", e, m.database);
    assert |pass + "@" + host + "/" + more| > |pass|;
  }

  lemma SlashInUsername(m: Config, host: string, more: string)
    requires MatchesEndpoint(m.clusterEndpoint) && m.password != "" && IsHostPort(host)
    ensures var e := TrimScheme(m.clusterEndpoint);
            Ambiguous(
              m.(username := host + "/" + more),
              m.(username := "", clusterEndpoint := host,
                 database := more + ":" + m.password + "@" + e + "/" + m.database))
  {
    HostPortHasNoScheme(host);
    var e := TrimScheme(m.clusterEndpoint);
    Regroup(SCHEME, host + "/", more);
    Regroup(SCHEME, host, "/");
    PathRegroup(SCHEME + host + "/", more + ":" + m.password, "@", e, m.database);
    Regroup(SCHEME + host + "/", more + ":", m.password);
    Regroup(SCHEME + host + "/", more, ":");
  }

  lemma PathRegroup(front: string, more: string, mark: string, e: string, database: string)
    ensures front + (more + mark + e + "/" + database) == front + more + mark + e + "/" + database
  {
    Regroup(front, more + mark + e + "/", database);
    Regroup(front, more + mark + e, "/");
    Regroup(front, more + mark, e);
    Regroup(front, more, mark);
  }

  lemma QuestionMarkInDatabase(m: Config, more: string)
    requires MatchesEndpoint(m.clusterEndpoint) && m.replicaSet == "" && more != ""
    ensures Ambiguous(
              m.(database := m.database + REPLICA_SET + more),
              m.(replicaSet := more + "?directConnection=true", directConnection := false))
  {
    var e := TrimScheme(m.clusterEndpoint);
    var front := if HasCredentials(m) then SCHEME + m.username + ":" + m.password + "@" + e + "/" else SCHEME + e + "/";
    Regroup(front, m.database + REPLICA_SET, more);
    Regroup(front, m.database, REPLICA_SET);
    Regroup(front + m.database, REPLICA_SET, more + "?directConnection=true");
    Regroup(front + m.database + REPLICA_SET, more, "?directConnection=true");
    assert |more + "?directConnection=true"| > 0;
  }

  lemma AmpersandInReplicaSet(m: Config)
    requires MatchesEndpoint(m.clusterEndpoint) && m.replicaSet != ""
    ensures Ambiguous(m.(replicaSet := m.replicaSet + DIRECT, directConnection := false), m.(directConnection := true))
  {
    Regroup(REPLICA_SET, m.replicaSet, DIRECT);
    assert |m.replicaSet + DIRECT| > |m.replicaSet|;
  }
}
