/** dbengine/elasticsearch_engine.go: credentials from a deployment's connection strings. */
module ElasticSearch {
  import opened Wrappers
  import opened Uri
  import opened Hostname

  /** What url.Parse makes of one connection string. */
  datatype Entry = Empty | Unparsable(message: string) | Parsed(url: Url)

  datatype Credentials = Credentials(hosts: seq<string>, username: string, password: string, uri: string,
                                     uris: seq<string>, caCertificateBase64: string)

  /** Panicked stands for a run-time panic. */
  datatype Outcome<+T> = Ready(value: T) | Failed(message: string) | Panicked

  predicate Usable(entry: Entry) {
    entry.Parsed? && FixComposeDirectHostname(entry.url.host).Some?
  }

  /** The entry's URL without its query and with its host repaired */
  function Fixed(entry: Entry): Url
    requires Usable(entry)
  {
    entry.url.(rawQuery := "", host := FixComposeDirectHostname(entry.url.host).value)
  }

  /** How the first unusable entry shows. */
  function Complaint(entry: Entry): Outcome<Url> {
    match entry
    case Empty => Failed("Invalid empty connection String")
    case Unparsable(message) => Failed(message)
    case Parsed(_) => Panicked
  }

  method StringToURL(entry: Entry) returns (r: Outcome<Url>)
    ensures Usable(entry) ==> r == Ready(Fixed(entry))
    ensures !Usable(entry) ==> r == Complaint(entry)
  {
    if entry.Empty? {
      return Failed("Invalid empty connection String");
    }
    if entry.Unparsable? {
      return Failed(entry.message);
    }
    var u := entry.url;
    u := u.(rawQuery := "");
    var host := FixComposeDirectHostname(u.host);
    if host.None? {
      return Panicked;
    }
    u := u.(host := host.value);
    return Ready(u);
  }

  ghost predicate Carries(entry: Entry, host: string, uri: string) {
    Usable(entry) && host == Fixed(entry).host && uri == Render(Fixed(entry))
  }

  /** The first i entries are usable, and these are their hosts and URIs, in order. */
  ghost predicate Gathered(entries: seq<Entry>, i: nat, hosts: seq<string>, uris: seq<string>) {
    && |hosts| == |uris| == i <= |entries|
    && forall j :: 0 <= j < i ==> Carries(entries[j], hosts[j], uris[j])
  }

  lemma GatheredGrows(entries: seq<Entry>, i: nat, hosts: seq<string>, uris: seq<string>, host: string, uri: string)
    requires Gathered(entries, i, hosts, uris) && i < |entries| && Carries(entries[i], host, uri)
    ensures Gathered(entries, i + 1, hosts + [host], uris + [uri])
  {
  }

  /** Equally long, ordered lists; each URI carries the repaired host at its index; user and password from the first. */
  ghost predicate Faithful(entries: seq<Entry>, c: Credentials) {
    && entries != [] && Gathered(entries, |entries|, c.hosts, c.uris)
    && c.uri == c.uris[0]
    && c.username == UserName(entries[0]) && c.password == Password(entries[0])
  }

  /** User.Username and User.Password of a parsed entry; both are empty where the URL has none. */
  function UserName(entry: Entry): string {
    if entry.Parsed? && entry.url.user.Some? then entry.url.user.value.name else ""
  }

  function Password(entry: Entry): string {
    if entry.Parsed? && entry.url.user.Some? then
      match entry.url.user.value.password
      case Some(p) => p
      case None => ""
    else ""
  }

  /** The first unusable entry decides how parsing ends. */
  ghost predicate FirstUnusable<T>(entries: seq<Entry>, r: Outcome<T>) {
    exists k :: 0 <= k < |entries| && (forall j :: 0 <= j < k ==> Usable(entries[j])) && !Usable(entries[k])
             && (Complaint(entries[k]).Panicked? <==> r.Panicked?)
             && (Complaint(entries[k]).Failed? ==> r.Failed? && r.message == Complaint(entries[k]).message)
  }

  method ParseURL(entries: seq<Entry>) returns (r: Outcome<Credentials>)
    ensures r.Ready? ==> Faithful(entries, r.value) && r.value.caCertificateBase64 == ""
    ensures r.Ready? <==> entries != [] && forall e :: e in entries ==> Usable(e)
    ensures !r.Ready? && entries != [] ==> FirstUnusable(entries, r)
    ensures entries == [] ==> r.Panicked?
  {
    var hosts: seq<string>, fixedConnectionStrings: seq<string> := [], [];
    var username, password := "", "";
    for i := 0 to |entries|
      invariant Gathered(entries, i, hosts, fixedConnectionStrings)
      invariant i == 0 ==> username == "" && password == ""
      invariant i > 0 ==> username == UserName(entries[0]) && password == Password(entries[0])
    {
      var parsed := StringToURL(entries[i]);
      if !parsed.Ready? {
        assert entries[i] in entries && !Usable(entries[i]);
        assert forall j :: 0 <= j < i ==> Carries(entries[j], hosts[j], fixedConnectionStrings[j]);
        r := if parsed.Panicked? then Panicked else Failed(parsed.message);
        assert FirstUnusable(entries, r);
        return;
      }
      var u := parsed.value;
      if i == 0 && u.user.Some? {
        username := u.user.value.name;
        password := if u.user.value.password.Some? then u.user.value.password.value else "";
      }
      GatheredGrows(entries, i, hosts, fixedConnectionStrings, u.host, Render(u));
      hosts := hosts + [u.host];
      fixedConnectionStrings := fixedConnectionStrings + [Render(u)];
    }
    if |fixedConnectionStrings| == 0 {
      return Panicked;
    }
    return Ready(Credentials(hosts, username, password, fixedConnectionStrings[0], fixedConnectionStrings, ""));
  }

  /** What of a deployment matters here. */
  datatype Source = Source(direct: seq<Entry>, caCertificateBase64: string)

  method GenerateCredentials(deployment: Option<Source>) returns (r: Outcome<Credentials>)
    ensures deployment.None? ==> r == Failed("no deployment provided: cannot parse the connection string")
    ensures deployment.Some? && deployment.value.direct == [] ==> r == Failed("failed to get connection string")
    ensures deployment.Some? && (exists e :: e in deployment.value.direct && !Usable(e)) ==>
              FirstUnusable(deployment.value.direct, r)
    ensures deployment.Some? && deployment.value.direct != []
              && (forall e :: e in deployment.value.direct ==> Usable(e)) ==>
              if UserName(deployment.value.direct[0]) == "" then r == Failed("connection string did not contain a user")
              else
                && r.Ready? && Faithful(deployment.value.direct, r.value)
                && r.value.caCertificateBase64 == deployment.value.caCertificateBase64
  {
    if deployment.None? {
      return Failed("no deployment provided: cannot parse the connection string");
    }
    var Source(entries, caCertificateBase64) := deployment.value;
    if |entries| < 1 {
      return Failed("failed to get connection string");
    }
    var parsed := ParseURL(entries);
    if !parsed.Ready? {
      return parsed;
    }
    if parsed.value.username == "" {
      return Failed("connection string did not contain a user");
    }
    return Ready(parsed.value.(caCertificateBase64 := caCertificateBase64));
  }

  // ---------- no query is left ----------

  lemma {:induction false} EscapedHostFree(host: string)
    ensures '?' !in Escape(Host, host) && '#' !in Escape(Host, host)
  {
    if host != [] {
      EscapedHostFree(host[1..]);
    }
  }

  /** url.Parse splits at these two, so neither is left in a scheme or a path. */
  predicate Delimited(u: Url) {
    '?' !in u.scheme && '#' !in u.scheme && '?' !in u.path && '#' !in u.path
  }

  /** A rendered URI up to its fragment. */
  function BeforeFragment(uri: string): string {
    uri[..IndexOf(uri, '#')]
  }

  lemma UserFree(user: Option<UserInfo>)
    ensures '?' !in RenderUser(user) && '#' !in RenderUser(user)
  {
    if user.Some? {
      EscapedFree(UserOrPassword, user.value.name, '?');
      EscapedFree(UserOrPassword, user.value.name, '#');
      if user.value.password.Some? {
        EscapedFree(UserOrPassword, user.value.password.value, '?');
        EscapedFree(UserOrPassword, user.value.password.value, '#');
      }
    }
  }

  /** The fragment is the only part that can hide a delimiter of its own. */
  lemma FragmentSplits(u: Url, body: string)
    requires body == u.scheme + "://" + RenderUser(u.user) + Escape(Host, u.host) + RenderPath(u.host, u.path)
                     + (if u.forceQuery || u.rawQuery != "" then "?" + u.rawQuery else "")
    requires '#' !in body
    ensures BeforeFragment(Render(u)) == body
  {
    IndexAfter(body, '#', u.fragment);
    if u.fragment != "" {
      assert Render(u) == body + ['#'] + u.fragment;
    } else {
      assert Render(u) == body;
    }
  }

  /**
    Clearing the query leaves a delimiter behind exactly when the connection string had one with nothing after it: up to
    its fragment, a rendered URI of the credentials has a question mark iff it is such a bare one.
  */
  lemma QueryFree(entry: Entry)
    requires Usable(entry) && Delimited(entry.url)
    ensures '?' in BeforeFragment(Render(Fixed(entry))) <==> entry.url.forceQuery
  {
    var u := Fixed(entry);
    var front := u.scheme + "://" + RenderUser(u.user) + Escape(Host, u.host) + RenderPath(u.host, u.path);
    EscapedHostFree(u.host);
    UserFree(u.user);
    assert '?' !in front && '#' !in front;
    FragmentSplits(u, front + if u.forceQuery then "?" else "");
  }

  /** The hosts handed out need no further repair. */
  lemma HostsAreRepaired(entries: seq<Entry>, c: Credentials, i: nat)
    requires Faithful(entries, c) && i < |entries|
    ensures FixComposeDirectHostname(c.hosts[i]) == Some(c.hosts[i])
  {
    RepairIdempotent(entries[i].url.host);
  }

  /** Each URI is its connection string's own parts around the repaired host; of a query only a bare mark is left. */
  lemma UriExactly(entries: seq<Entry>, c: Credentials, i: nat)
    requires Faithful(entries, c) && i < |entries|
    ensures entries[i].Parsed? && Some(c.hosts[i]) == FixComposeDirectHostname(entries[i].url.host)
    ensures var u := entries[i].url;
            c.uris[i] == u.scheme + "://" + RenderUser(u.user) + Escape(Host, c.hosts[i])
                         + RenderPath(c.hosts[i], u.path)
                         + (if u.forceQuery then "?" else "") + (if u.fragment != "" then "#" + u.fragment else "")
  {
    assert Carries(entries[i], c.hosts[i], c.uris[i]);
    assert "?" + "" == "?";
  }

  // ---------- user and password ----------

  /** The part of a rendered URI between its scheme and the host, and what comes after it. */
  ghost predicate Opens(uri: string, scheme: string, userinfo: string, rest: string) {
    uri == scheme + "://" + userinfo + "@" + rest && '@' !in userinfo
  }

  /** A userinfo reads back as this user and password: up to its first colon, and from there on, if there is one. */
  predicate ReadsBack(userinfo: string, username: string, password: string) {
    var colon := IndexOf(userinfo, ':');
    && Unescape(userinfo[..colon]) == Some(username)
    && (if colon < |userinfo| then Unescape(userinfo[colon + 1..]) == Some(password) else password == "")
  }

  lemma UserInfoReadsBack(user: UserInfo)
    requires Octets(user.name) && (user.password.Some? ==> Octets(user.password.value))
    ensures exists userinfo :: RenderUser(Some(user)) == userinfo + "@" && '@' !in userinfo
              && ReadsBack(userinfo, user.name, if user.password.Some? then user.password.value else "")
  {
    var name := Escape(UserOrPassword, user.name);
    EscapedFree(UserOrPassword, user.name, '@');
    EscapedFree(UserOrPassword, user.name, ':');
    EscapeRoundTrip(UserOrPassword, user.name);
    match user.password {
      case None =>
        IndexAfter(name, ':', []);
        assert name[..|name|] == name;
        assert RenderUser(Some(user)) == name + "@";
        assert ReadsBack(name, user.name, "");
      case Some(password) =>
        var secret := Escape(UserOrPassword, password);
        EscapedFree(UserOrPassword, password, '@');
        EscapeRoundTrip(UserOrPassword, password);
        IndexAfter(name, ':', secret);
        var userinfo := name + [':'] + secret;
        assert RenderUser(Some(user)) == userinfo + "@";
        assert ReadsBack(userinfo, user.name, password);
    }
  }

  /**
    The user and password handed out are those of the first URI handed out: its userinfo reads back as exactly them,
    and where it has none both are empty.
  */
  lemma UserOfFirstUri(entries: seq<Entry>, c: Credentials)
    requires Faithful(entries, c)
    requires entries[0].url.user.Some? ==>
               && Octets(entries[0].url.user.value.name)
               && (entries[0].url.user.value.password.Some? ==> Octets(entries[0].url.user.value.password.value))
    ensures if entries[0].url.user.Some? then
              exists userinfo, rest ::
                Opens(c.uri, entries[0].url.scheme, userinfo, rest) && ReadsBack(userinfo, c.username, c.password)
            else c.username == "" && c.password == ""
  {
    assert Carries(entries[0], c.hosts[0], c.uris[0]);
    var u := Fixed(entries[0]);
    if u.user.Some? {
      UserInfoReadsBack(u.user.value);
      var password := if u.user.value.password.Some? then u.user.value.password.value else "";
      var userinfo :| RenderUser(u.user) == userinfo + "@" && '@' !in userinfo
                      && ReadsBack(userinfo, u.user.value.name, password);
      RenderOpens(u, userinfo);
    }
  }

  lemma RenderOpens(u: Url, userinfo: string)
    requires RenderUser(u.user) == userinfo + "@" && '@' !in userinfo
    ensures exists rest :: Opens(Render(u), u.scheme, userinfo, rest)
  {
    var host, path := Escape(Host, u.host), RenderPath(u.host, u.path);
    var query := if u.forceQuery || u.rawQuery != "" then "?" + u.rawQuery else "";
    var fragment := if u.fragment != "" then "#" + u.fragment else "";
    Regroup(u.scheme + "://", userinfo + "@", host, path, query, fragment);
    assert u.scheme + "://" + (userinfo + "@") == u.scheme + "://" + userinfo + "@";
    assert Opens(Render(u), u.scheme, userinfo, host + path + query + fragment);
  }

  lemma Regroup(a: string, b: string, c: string, d: string, e: string, f: string)
    ensures a + b + c + d + e + f == a + b + (c + d + e + f)
  {
  }
}
