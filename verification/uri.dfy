/** The parts of Go's net/url that the database engines rely on. Texts are sequences of octets, one per character. */
module Uri {
  import opened Wrappers
  import opened Text
  import Hex

  predicate Octets(s: string) {
    forall i :: 0 <= i < |s| ==> s[i] < '\U{0100}'
  }

  datatype Component = UserOrPassword | Host | Path

  predicate Unreserved(c: char) {
    'a' <= c <= 'z' || 'A' <= c <= 'Z' || '0' <= c <= '9' || c == '-' || c == '_' || c == '.' || c == '~'
  }

  predicate HostOnly(c: char) {
    c == '!' || c == '$' || c == '&' || c == '\'' || c == '(' || c == ')' || c == '*' || c == '+' || c == ','
    || c == ';' || c == '=' || c == ':' || c == '[' || c == ']' || c == '<' || c == '>' || c == '"'
  }

  /** Which octets are percent-encoded in a component; section 2.2 of RFC 3986 lists the reserved characters. */
  predicate ShouldEscape(where: Component, c: char) {
    if Unreserved(c) || (where == Host && HostOnly(c)) then false
    else if c == '$' || c == '&' || c == '+' || c == ',' || c == '/' || c == ':' || c == ';' || c == '=' || c == '?'
            || c == '@' then
      (match where
       case UserOrPassword => c == '@' || c == '/' || c == '?' || c == ':'
       case Host => true
       case Path => c == '?')
    else true
  }

  function EscapeOctet(where: Component, c: char): string {
    if ShouldEscape(where, c) then ['%', Hex.UpperDigit(c as int / 16 % 16), Hex.UpperDigit(c as int % 16)] else [c]
  }

  function Escape(where: Component, s: string): string {
    if s == [] then [] else EscapeOctet(where, s[0]) + Escape(where, s[1..])
  }

  /** Percent-decoding, section 2.1 of RFC 3986. */
  function Unescape(s: string): Option<string>
    decreases |s|
  {
    if s == [] then Some([])
    else if s[0] == '%' then
      if |s| >= 3 && Hex.Value(s[1]).Some? && Hex.Value(s[2]).Some? then
        Cons((Hex.Value(s[1]).value * 16 + Hex.Value(s[2]).value) as char, Unescape(s[3..]))
      else None
    else Cons(s[0], Unescape(s[1..]))
  }

  function Cons(c: char, rest: Option<string>): Option<string> {
    if rest.Some? then Some([c] + rest.value) else None
  }

  datatype UserInfo = UserInfo(name: string, password: Option<string>)

  /** The fields of url.URL that are filled in here; the path and the fragment are held already escaped. */
  datatype Url = Url(scheme: string, user: Option<UserInfo>, host: string, path: string,
                     rawQuery: string, forceQuery: bool, fragment: string)

  /** Userinfo.String, with the delimiter that follows it */
  function RenderUser(user: Option<UserInfo>): string {
    match user
    case None => ""
    case Some(UserInfo(name, None)) => Escape(UserOrPassword, name) + "@"
    case Some(UserInfo(name, Some(password))) =>
      Escape(UserOrPassword, name) + ":" + Escape(UserOrPassword, password) + "@"
  }

  /** URL.EscapedPath, when no raw path is kept */
  function EscapedPath(path: string): string {
    if path == "*" then path else Escape(Path, path)
  }

  function RenderPath(host: string, path: string): string {
    if path != "" && path[0] != '/' && host != "" then "/" + path else path
  }

  /** URL.String, for a URL that has a scheme */
  function Render(u: Url): string {
    u.scheme + "://" + RenderUser(u.user) + Escape(Host, u.host) + RenderPath(u.host, u.path)
    + (if u.forceQuery || u.rawQuery != "" then "?" + u.rawQuery else "")
    + (if u.fragment != "" then "#" + u.fragment else "")
  }

  lemma UnescapeOctet(where: Component, c: char, tail: string)
    requires c < '\U{0100}'
    ensures Unescape(EscapeOctet(where, c) + tail) == Cons(c, Unescape(tail))
  {
    var e := EscapeOctet(where, c);
    var t := e + tail;
    if ShouldEscape(where, c) {
      var hi, lo := c as int / 16, c as int % 16;
      assert hi % 16 == hi && hi * 16 + lo == c as int;
      Hex.RoundTrip(hi);
      Hex.RoundTrip(lo);
      assert t[0] == '%' && t[1] == Hex.UpperDigit(hi) && t[2] == Hex.UpperDigit(lo) && t[3..] == tail;
    } else {
      assert t[0] == c && t[1..] == tail;
    }
  }

  lemma {:induction false} EscapeRoundTrip(where: Component, s: string)
    requires Octets(s)
    ensures Unescape(Escape(where, s)) == Some(s)
  {
    if s != [] {
      EscapeRoundTrip(where, s[1..]);
      UnescapeOctet(where, s[0], Escape(where, s[1..]));
      assert [s[0]] + s[1..] == s;
    }
  }

  /** An escaped component contains no octet that delimits it: not those that were escaped, and no other delimiter. */
  lemma {:induction false} EscapedFree(where: Component, s: string, c: char)
    requires ShouldEscape(where, c) && c != '%'
    ensures c !in Escape(where, s)
  {
    if s != [] {
      EscapedFree(where, s[1..], c);
    }
  }

  /** The sub-delimiters of section 2.2 of RFC 3986. */
  predicate SubDelimiter(c: char) {
    c == '!' || c == '$' || c == '&' || c == '\'' || c == '(' || c == ')' || c == '*' || c == '+' || c == ','
    || c == ';' || c == '='
  }

  /** What may stand in a userinfo or a path by sections 3.2.1 and 3.3 of RFC 3986, next to encoded octets. */
  predicate Legal(where: Component, c: char) {
    Unreserved(c) || SubDelimiter(c) || c == '%' || c == ':' || (where == Path && (c == '@' || c == '/'))
  }

  /** Whatever octets a user, a password or a database name has, escaping makes a legal component of them. */
  lemma {:induction false} EscapedLegal(where: Component, s: string)
    requires where != Host && Octets(s)
    ensures forall c :: c in Escape(where, s) ==> Legal(where, c)
  {
    if s != [] {
      EscapedLegal(where, s[1..]);
      UpperDigitLegal(s[0] as int / 16 % 16);
      UpperDigitLegal(s[0] as int % 16);
    }
  }

  lemma UpperDigitLegal(n: nat)
    requires n < 16
    ensures Unreserved(Hex.UpperDigit(n))
  {
  }

  /** A text that escaping leaves alone and that no escape sequence can contribute to. */
  predicate Plain(t: string) {
    forall i :: 0 <= i < |t| ==> 'a' <= t[i] <= 'z' || t[i] == '-'
  }

  lemma {:induction false} PlainPrefix(where: Component, t: string, s: string)
    requires Plain(t)
    ensures t <= Escape(where, s) <==> t <= s
  {
    if t != [] && s != [] {
      var e := EscapeOctet(where, s[0]);
      PlainPrefix(where, t[1..], s[1..]);
      if t[0] == s[0] {
        assert e == [s[0]];
        assert (e + Escape(where, s[1..]))[1..] == Escape(where, s[1..]);
        PrefixStep(t, Escape(where, s));
        PrefixStep(t, s);
      } else if t <= Escape(where, s) {
        assert false;
      }
    }
  }

  lemma PrefixStep(t: string, s: string)
    requires t != [] && s != [] && t[0] == s[0]
    ensures t <= s <==> t[1..] <= s[1..]
  {
    if t <= s {
      assert s[..|t|] == t;
      assert t[1..] == s[1..][..|t| - 1];
    }
    if t[1..] <= s[1..] {
      assert s[1..][..|t| - 1] == t[1..];
      assert t == [t[0]] + t[1..];
    }
  }

  lemma OccursInTail(s: string, t: string, i: nat)
    requires s != []
    ensures OccursAt(s[1..], t, i) <==> OccursAt(s, t, i + 1)
  {
    if i + 1 + |t| <= |s| {
      assert s[1..][i..i + |t|] == s[i + 1..i + 1 + |t|];
    }
  }

  lemma ContainsStep(s: string, t: string)
    requires t != []
    ensures Contains(s, t) <==> t <= s || (s != [] && Contains(s[1..], t))
  {
    if t <= s {
      assert OccursAt(s, t, 0);
    }
    if s != [] && Contains(s[1..], t) {
      var i :| 0 <= i <= |s[1..]| && OccursAt(s[1..], t, i);
      OccursInTail(s, t, i);
    }
    if Contains(s, t) && !(t <= s) {
      var i :| 0 <= i <= |s| && OccursAt(s, t, i);
      assert i > 0;
      OccursInTail(s, t, i - 1);
    }
  }

  /** A text that does not start like t contains t iff its tail does. */
  lemma ContainsTail(c: char, s: string, t: string)
    requires t != [] && t[0] != c
    ensures Contains([c] + s, t) <==> Contains(s, t)
  {
    ContainsStep([c] + s, t);
    assert ([c] + s)[1..] == s;
  }

  /** Escaping neither makes nor breaks an occurrence of a plain text. */
  lemma {:induction false} EscapedContains(where: Component, s: string, t: string)
    requires Plain(t) && t != []
    ensures Contains(Escape(where, s), t) <==> Contains(s, t)
  {
    if s != [] {
      var e, tail := EscapeOctet(where, s[0]), Escape(where, s[1..]);
      EscapedContains(where, s[1..], t);
      PlainPrefix(where, t, s);
      ContainsStep(s, t);
      if |e| == 3 {
        ContainsTail(e[2], tail, t);
        ContainsTail(e[1], [e[2]] + tail, t);
        ContainsTail(e[0], [e[1]] + ([e[2]] + tail), t);
        assert e + tail == [e[0]] + ([e[1]] + ([e[2]] + tail));
      } else {
        ContainsStep(Escape(where, s), t);
        assert (e + tail)[1..] == tail;
      }
    }
  }

  // ---------- replacing ----------

  lemma PrefixBefore(a: string, c: char, b: string, pattern: string)
    requires c !in pattern
    ensures pattern <= a + [c] + b <==> pattern <= a
  {
    var s, n := a + [c] + b, |pattern|;
    assert s[|a|] == c && s[..|a|] == a;
    if pattern <= s {
      assert s[..n] == pattern;
      assert forall i :: 0 <= i < n ==> s[i] in pattern;
      assert n <= |a|;
      assert s[..|a|][..n] == s[..n];
    }
  }

  /** A character outside the pattern keeps the texts on its two sides apart. */
  lemma {:induction false} ReplaceSeparately(a: string, c: char, b: string, pattern: string, r: string)
    requires pattern != [] && c !in pattern
    ensures ReplaceAll(a + [c] + b, pattern, r) == ReplaceAll(a, pattern, r) + [c] + ReplaceAll(b, pattern, r)
    decreases |a|
  {
    var s, n := a + [c] + b, |pattern|;
    PrefixBefore(a, c, b, pattern);
    if a == [] {
      assert s[0] == c && s[1..] == b;
      assert !(pattern <= s);
    } else if pattern <= s {
      assert s[n..] == a[n..] + [c] + b;
      ReplaceSeparately(a[n..], c, b, pattern, r);
      Assoc(r, ReplaceAll(a[n..], pattern, r), [c], ReplaceAll(b, pattern, r));
    } else {
      assert s[1..] == a[1..] + [c] + b;
      ReplaceSeparately(a[1..], c, b, pattern, r);
      Assoc([a[0]], ReplaceAll(a[1..], pattern, r), [c], ReplaceAll(b, pattern, r));
    }
  }

  lemma Assoc(a: string, b: string, c: string, d: string)
    ensures a + (b + c + d) == (a + b) + c + d
  {
  }

  /** Replacing changes nothing iff there is nothing to replace, or it is replaced by itself. */
  lemma {:induction false} ReplaceChanges(s: string, pattern: string, r: string)
    requires pattern != []
    ensures !Contains(s, pattern) ==> ReplaceAll(s, pattern, r) == s
    ensures r == pattern ==> ReplaceAll(s, pattern, r) == s
    ensures |r| == |pattern| ==> |ReplaceAll(s, pattern, r)| == |s|
    ensures |r| == |pattern| && Contains(s, pattern) && r != pattern ==> ReplaceAll(s, pattern, r) != s
    ensures |r| >= |pattern| ==> |ReplaceAll(s, pattern, r)| >= |s|
    ensures |r| <= |pattern| ==> |ReplaceAll(s, pattern, r)| <= |s|
    ensures |r| > |pattern| && Contains(s, pattern) ==> |ReplaceAll(s, pattern, r)| > |s|
    ensures |r| < |pattern| && Contains(s, pattern) ==> |ReplaceAll(s, pattern, r)| < |s|
    decreases |s|
  {
    ContainsStep(s, pattern);
    if s == [] {
    } else if pattern <= s {
      var n := |pattern|;
      ReplaceChanges(s[n..], pattern, r);
      assert s == pattern + s[n..];
      if |r| == n && r != pattern {
        assert (r + ReplaceAll(s[n..], pattern, r))[..n] == r && s[..n] == pattern;
      }
    } else {
      ReplaceChanges(s[1..], pattern, r);
      assert s == [s[0]] + s[1..];
      assert ([s[0]] + ReplaceAll(s[1..], pattern, r))[1..] == ReplaceAll(s[1..], pattern, r);
    }
  }

  // ---------- splitting ----------

  /** Position of the first c, or the length. */
  function IndexOf(s: string, c: char): (i: nat)
    ensures i <= |s|
    ensures i < |s| ==> s[i] == c
  {
    if s == [] || s[0] == c then 0 else 1 + IndexOf(s[1..], c)
  }

  lemma {:induction false} IndexAfter(a: string, c: char, b: string)
    requires c !in a
    ensures IndexOf(a + [c] + b, c) == |a| && IndexOf(a, c) == |a|
    ensures (a + [c] + b)[..|a|] == a && (a + [c] + b)[|a| + 1..] == b
  {
    if a != [] {
      assert (a + [c] + b)[1..] == a[1..] + [c] + b;
      IndexAfter(a[1..], c, b);
    }
  }

  lemma {:induction false} JoinFree(fields: seq<string>, c: char, d: char)
    requires c != d && forall f :: f in fields ==> d !in f
    ensures d !in Join(fields, c)
  {
    if |fields| > 1 {
      JoinFree(fields[1..], c, d);
    }
  }
}
