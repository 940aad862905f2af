/** dbengine/mongo_engine.go: the connection URI handed out with Mongo credentials. */
module MongoUri {
  import opened Wrappers
  import opened Text
  import opened Uri

  const PLACEHOLDER := "mongo-db-host-place-holder"

  /** The URI before the hosts are put in: Go's URL type has room for one host only. */
  function BaseUri(username: string, password: string, database: string): string {
    Render(Url("mongodb", Some(UserInfo(username, Some(password))), PLACEHOLDER, EscapedPath(database),
               "", false, ""))
  }

  /** The URI of dialInfoToCredentials */
  function MongoUri(username: string, password: string, hosts: seq<string>, database: string): string {
    ReplaceAll(BaseUri(username, password, database), PLACEHOLDER, Join(hosts, ','))
  }

  /** What comes after the hosts. */
  function PathPart(database: string): string {
    RenderPath(PLACEHOLDER, EscapedPath(database))
  }

  /** The URI as it is meant: the given text where the hosts go, nothing else touched. */
  function WithHosts(username: string, password: string, hosts: string, database: string): string {
    "mongodb" + [':'] + ("" + ['/'] + ("" + ['/']
      + (Escape(UserOrPassword, username) + [':'] + (Escape(UserOrPassword, password) + ['@']
        + (hosts + PathPart(database))))))
  }

  // ---------- the placeholder ----------

  lemma PlaceholderPlain()
    ensures Plain(PLACEHOLDER) && PLACEHOLDER != []
    ensures ':' !in PLACEHOLDER && '/' !in PLACEHOLDER && '@' !in PLACEHOLDER
    ensures Escape(Host, PLACEHOLDER) == PLACEHOLDER
  {
    IsPlain();
    EscapePlain(PLACEHOLDER);
  }

  lemma IsPlain()
    ensures Plain(PLACEHOLDER)
  {
  }

  lemma {:induction false} EscapePlain(t: string)
    requires Plain(t)
    ensures ':' !in t && '/' !in t && '@' !in t
    ensures Escape(Host, t) == t
  {
    if t != [] {
      EscapePlain(t[1..]);
      assert [t[0]] + t[1..] == t;
    }
  }

  lemma BaseUriShape(username: string, password: string, database: string)
    ensures BaseUri(username, password, database) == WithHosts(username, password, PLACEHOLDER, database)
  {
    PlaceholderPlain();
    var u, p := Escape(UserOrPassword, username), Escape(UserOrPassword, password);
    var tail := PLACEHOLDER + PathPart(database);
    Flatten(u, p, PLACEHOLDER, PathPart(database));
  }

  lemma Flatten(u: string, p: string, h: string, path: string)
    ensures "mongodb" + "://" + (u + ":" + p + "@") + h + path + "" + ""
            == "mongodb" + [':'] + ("" + ['/'] + ("" + ['/'] + (u + [':'] + (p + ['@'] + (h + path)))))
  {
  }

  lemma ReplaceInPath(database: string, r: string)
    ensures var path := PathPart(database);
            ReplaceAll(PLACEHOLDER + path, PLACEHOLDER, r) == r + ReplaceAll(path, PLACEHOLDER, r)
  {
    assert (PLACEHOLDER + PathPart(database))[|PLACEHOLDER|..] == PathPart(database);
  }

  /** Replacing works on each component by itself: no occurrence can straddle a delimiter. */
  lemma ReplaceByComponent(username: string, password: string, hosts: seq<string>, database: string)
    ensures var u, p := Escape(UserOrPassword, username), Escape(UserOrPassword, password);
            var r := Join(hosts, ',');
            MongoUri(username, password, hosts, database)
            == "mongodb" + [':'] + ("" + ['/'] + ("" + ['/']
               + (ReplaceAll(u, PLACEHOLDER, r) + [':'] + (ReplaceAll(p, PLACEHOLDER, r) + ['@']
                 + (r + ReplaceAll(PathPart(database), PLACEHOLDER, r))))))
  {
    var u, p := Escape(UserOrPassword, username), Escape(UserOrPassword, password);
    var r := Join(hosts, ',');
    var tail := PLACEHOLDER + PathPart(database);
    BaseUriShape(username, password, database);
    PlaceholderPlain();
    ReplaceInPath(database, r);
    ReplaceSeparately(p, '@', tail, PLACEHOLDER, r);
    ReplaceSeparately(u, ':', p + ['@'] + tail, PLACEHOLDER, r);
    ReplaceSeparately("", '/', u + [':'] + (p + ['@'] + tail), PLACEHOLDER, r);
    ReplaceSeparately("", '/', "" + ['/'] + (u + [':'] + (p + ['@'] + tail)), PLACEHOLDER, r);
    ReplaceSeparately("mongodb", ':', "" + ['/'] + ("" + ['/'] + (u + [':'] + (p + ['@'] + tail))), PLACEHOLDER, r);
    TooShort("mongodb", r);
    TooShort("", r);
  }

  lemma TooShort(s: string, r: string)
    requires |s| < |PLACEHOLDER|
    ensures ReplaceAll(s, PLACEHOLDER, r) == s
  {
    ReplaceChanges(s, PLACEHOLDER, r);
  }

  /** The placeholder occurs in one of the texts that surround the hosts. */
  predicate PlaceholderElsewhere(username: string, password: string, database: string) {
    Contains(username, PLACEHOLDER) || Contains(password, PLACEHOLDER) || Contains(database, PLACEHOLDER)
  }

  lemma PathContains(database: string)
    ensures Contains(PathPart(database), PLACEHOLDER) <==> Contains(database, PLACEHOLDER)
  {
    PathContainsPlain(database, PLACEHOLDER) by {
      PlaceholderPlain();
    }
  }

  lemma PathContainsPlain(database: string, t: string)
    requires Plain(t) && t != [] && '/' !in t
    ensures Contains(RenderPath(t, EscapedPath(database)), t) <==> Contains(database, t)
  {
    var e := EscapedPath(database);
    assert RenderPath(t, e) == e || RenderPath(t, e) == ['/'] + e;
    EscapedContains(Path, database, t);
    ContainsTail('/', EscapedPath(database), t);
  }

  lemma SameParts(u: string, u': string, p: string, p': string, r: string, d: string, d': string)
    requires (|u'| >= |u| && |p'| >= |p| && |d'| >= |d|) || (|u'| <= |u| && |p'| <= |p| && |d'| <= |d|)
    ensures u' + [':'] + (p' + ['@'] + (r + d')) == u + [':'] + (p + ['@'] + (r + d))
            <==> u' == u && p' == p && d' == d
  {
    var a, b := u + [':'] + (p + ['@'] + (r + d)), u' + [':'] + (p' + ['@'] + (r + d'));
    if a == b {
      assert |u'| == |u| && |p'| == |p| && |d'| == |d|;
      assert a[..|u|] == u && b[..|u|] == u';
      var n := |u| + 1;
      assert a[n..n + |p|] == p && b[n..n + |p|] == p';
      var m := n + |p| + 1 + |r|;
      assert a[m..] == d && b[m..] == d';
    }
  }

  /**
    The replacement puts the hosts in and touches nothing else, iff no surrounding text contains the placeholder (or
    the hosts are spelled like it).
  */
  lemma UriIsIntended(username: string, password: string, hosts: seq<string>, database: string)
    ensures MongoUri(username, password, hosts, database)
              == WithHosts(username, password, Join(hosts, ','), database)
            <==> Join(hosts, ',') == PLACEHOLDER || !PlaceholderElsewhere(username, password, database)
  {
    var u, p, d := Escape(UserOrPassword, username), Escape(UserOrPassword, password), PathPart(database);
    var r := Join(hosts, ',');
    var u', p' := ReplaceAll(u, PLACEHOLDER, r), ReplaceAll(p, PLACEHOLDER, r);
    var d' := ReplaceAll(d, PLACEHOLDER, r);
    ReplaceByComponent(username, password, hosts, database);
    ReplaceChanges(u, PLACEHOLDER, r);
    ReplaceChanges(p, PLACEHOLDER, r);
    ReplaceChanges(d, PLACEHOLDER, r);
    PlaceholderPlain();
    EscapedContains(UserOrPassword, username, PLACEHOLDER);
    EscapedContains(UserOrPassword, password, PLACEHOLDER);
    PathContains(database);
    SameParts(u, u', p, p', r, d, d');
    SamePrefix(u + [':'] + (p + ['@'] + (r + d)), u' + [':'] + (p' + ['@'] + (r + d')));
  }

  lemma SamePrefix(a: string, b: string)
    ensures "mongodb" + [':'] + ("" + ['/'] + ("" + ['/'] + a)) == "mongodb" + [':'] + ("" + ['/'] + ("" + ['/'] + b))
            <==> a == b
  {
    var x := "mongodb" + [':'] + ("" + ['/'] + ("" + ['/'] + a));
    var y := "mongodb" + [':'] + ("" + ['/'] + ("" + ['/'] + b));
    assert x[10..] == a && y[10..] == b;
  }

  // ---------- reading the URI back ----------

  datatype Parts = Parts(username: string, password: string, hosts: seq<string>, database: string)

  /** Splits a URI at its delimiters (sections 3.2 and 3.3 of RFC 3986) and decodes the components. */
  function ParseUri(uri: string): Option<Parts> {
    if !("mongodb://" <= uri) then None
    else
      var rest := uri[10..];
      var at := IndexOf(rest, '@');
      if at == |rest| then None
      else
        var userinfo, after := rest[..at], rest[at + 1..];
        var colon, slash := IndexOf(userinfo, ':'), IndexOf(after, '/');
        if colon == |userinfo| then None
        else
          var path := if slash < |after| then after[slash + 1..] else [];
          match (Unescape(userinfo[..colon]), Unescape(userinfo[colon + 1..]), Unescape(path))
          case (Some(username), Some(password), Some(database)) =>
            Some(Parts(username, password, Split(after[..slash], ','), database))
          case _ => None
  }

  predicate HostTexts(hosts: seq<string>) {
    hosts != [] && forall h :: h in hosts ==> ',' !in h && '/' !in h && '@' !in h
  }

  /** One slash at the front of a database name is taken for the one that ends the hosts. */
  function WithoutSlash(database: string): string {
    if database != [] && database[0] == '/' then database[1..] else database
  }

  lemma PathReadBack(database: string)
    requires Octets(database)
    ensures PathPart(database) != [] ==> PathPart(database)[0] == '/'
    ensures Unescape(if PathPart(database) == [] then [] else PathPart(database)[1..]) == Some(WithoutSlash(database))
  {
    EscapeRoundTrip(Path, database);
    if database == "*" {
      assert PathPart(database)[1..] == "*";
      assert Unescape("*") == Cons('*', Unescape([]));
    } else if database != [] {
      EscapeRoundTrip(Path, database[1..]);
      var e := EscapedPath(database);
      assert e == EscapeOctet(Path, database[0]) + Escape(Path, database[1..]);
      if database[0] == '/' {
        assert PathPart(database) == e && e[1..] == Escape(Path, database[1..]);
      } else {
        assert PathPart(database) == ['/'] + e;
        assert (['/'] + e)[1..] == e;
      }
    }
  }

  lemma SplitUserInfo(username: string, password: string)
    requires Octets(username) && Octets(password)
    ensures var u, p := Escape(UserOrPassword, username), Escape(UserOrPassword, password);
            var userinfo := u + [':'] + p;
            && '@' !in userinfo
            && IndexOf(userinfo, ':') == |u| && userinfo[..|u|] == u && userinfo[|u| + 1..] == p
            && Unescape(u) == Some(username) && Unescape(p) == Some(password)
  {
    EscapedFree(UserOrPassword, username, '@');
    EscapedFree(UserOrPassword, password, '@');
    EscapedFree(UserOrPassword, username, ':');
    EscapeRoundTrip(UserOrPassword, username);
    EscapeRoundTrip(UserOrPassword, password);
    IndexAfter(Escape(UserOrPassword, username), ':', Escape(UserOrPassword, password));
  }

  lemma SplitAddress(hosts: seq<string>, path: string)
    requires HostTexts(hosts) && (path != [] ==> path[0] == '/')
    ensures var after := Join(hosts, ',') + path;
            var slash := IndexOf(after, '/');
            && Split(after[..slash], ',') == hosts
            && (if slash < |after| then after[slash + 1..] else []) == (if path == [] then [] else path[1..])
  {
    var joined := Join(hosts, ',');
    JoinFree(hosts, ',', '/');
    SplitAfterJoin(hosts, ',');
    if path == [] {
      IndexAfter(joined, '/', []);
      assert joined + path == joined;
    } else {
      IndexAfter(joined, '/', path[1..]);
      assert path == ['/'] + path[1..];
      assert joined + path == joined + ['/'] + path[1..];
    }
  }

  /** Reading the intended URI back gives the same user, password, hosts and, up to a leading slash, database. */
  lemma IntendedReadBack(username: string, password: string, hosts: seq<string>, database: string)
    requires Octets(username) && Octets(password) && Octets(database) && HostTexts(hosts)
    ensures ParseUri(WithHosts(username, password, Join(hosts, ','), database))
            == Some(Parts(username, password, hosts, WithoutSlash(database)))
  {
    var u, p := Escape(UserOrPassword, username), Escape(UserOrPassword, password);
    var userinfo := u + [':'] + p;
    var after := Join(hosts, ',') + PathPart(database);
    var uri := WithHosts(username, password, Join(hosts, ','), database);
    Unflatten(u, p, after);
    var rest := uri[10..];
    SplitUserInfo(username, password);
    IndexAfter(userinfo, '@', after);
    PathReadBack(database);
    SplitAddress(hosts, PathPart(database));
  }

  lemma Unflatten(u: string, p: string, after: string)
    ensures var uri := "mongodb" + [':'] + ("" + ['/'] + ("" + ['/'] + (u + [':'] + (p + ['@'] + after))));
            "mongodb://" <= uri && uri[10..] == (u + [':'] + p) + ['@'] + after
  {
  }

  /**
    The URI of every set of credentials: if the placeholder does not occur in the binding's texts, it reads back as the
    same user, password, ordered hosts and database.
  */
  lemma UriReadBack(username: string, password: string, hosts: seq<string>, database: string)
    requires Octets(username) && Octets(password) && Octets(database) && HostTexts(hosts)
    requires !PlaceholderElsewhere(username, password, database)
    ensures ParseUri(MongoUri(username, password, hosts, database))
            == Some(Parts(username, password, hosts, WithoutSlash(database)))
  {
    UriIsIntended(username, password, hosts, database);
    IntendedReadBack(username, password, hosts, database);
  }
}
