/** dbengine/elasticsearch_engine.go: repairing the hostnames Compose reports without a dot. */
module Hostname {
  import opened Wrappers
  import opened Text
  import opened Regex

  const PORT := [One(Colon), Plus(Digit)]
  const HOST_REST := [Plus(NotColon)] + PORT
  const NUMBERED := [Plus(Digit)] + HOST_REST
  const DOTTED := [Opt(Period)] + NUMBERED
  const SITE := [One(Dash)] + ([One(LowerLetter)] + ([One(Digit)] + ([One(Digit)] + DOTTED)))

  /** (.+-[a-z]{1}[0-9]{2})\.?(\d+)([^:]+):(\d+) */
  const PATTERN := [Plus(AnyButNewline)] + SITE

  /** fixComposeDirectHostname. None stands for the run-time panic when the pattern does not match at all. */
  function FixComposeDirectHostname(hostname: string): Option<string> {
    if !Contains(hostname, "compose.direct") then Some(hostname)
    else
      match Find(PATTERN, hostname, 0)
      case None => None
      case Some((start, ends)) => if |ends| == 10 then Groups(hostname, start, ends) else None
  }

  /** Groups 1 to 4 of a match, put together with the dot and the colon. */
  function Groups(s: string, start: nat, ends: seq<nat>): Option<string>
    requires |ends| == 10
  {
    if start <= ends[4] <= ends[5] <= ends[6] <= ends[7] <= ends[8] <= ends[9] <= |s| then
      Some(s[start..ends[4]] + "." + s[ends[5]..ends[6]] + s[ends[6]..ends[7]] + ":" + s[ends[8]..ends[9]])
    else None
  }

  // ---------- the direct scan ----------

  /** The first colon at or after i, or the end. */
  function ColonFrom(s: string, i: nat): nat
    requires i <= |s|
  {
    StretchEnd(NotColon, s, i)
  }

  /** At q: a digit, at least one more character before the next colon, and a digit after that colon. */
  predicate NumberedAt(s: string, q: nat) {
    At(s, q, Digit) && var k := ColonFrom(s, q); k >= q + 2 && At(s, k, Colon) && At(s, k + 1, Digit)
  }

  /** Where the digits after a site at p start: past the dot, if there is one. */
  function DigitsAfter(s: string, p: nat): nat {
    if At(s, p + 4, Period) then p + 5 else p + 4
  }

  /** At p: a dash, a letter, two digits, perhaps a dot, and a well-formed rest. */
  predicate SiteAt(s: string, p: nat) {
    && At(s, p, Dash) && At(s, p + 1, LowerLetter) && At(s, p + 2, Digit) && At(s, p + 3, Digit)
    && NumberedAt(s, DigitsAfter(s, p))
  }

  /** The last site after `start` and no later than `limit`. */
  function LastSiteUpTo(s: string, start: nat, limit: nat): (r: Option<nat>)
    requires start <= limit
    ensures r.Some? ==> start < r.value <= limit && SiteAt(s, r.value)
    ensures r.Some? ==> forall p :: r.value < p <= limit ==> !SiteAt(s, p)
    ensures r.None? ==> forall p :: start < p <= limit ==> !SiteAt(s, p)
    decreases limit
  {
    if limit == start then None
    else if SiteAt(s, limit) then Some(limit)
    else LastSiteUpTo(s, start, limit - 1)
  }

  /** The last site on the line that starts at `start`. */
  function LastSite(s: string, start: nat): Option<nat>
    requires start <= |s|
  {
    LastSiteUpTo(s, start, StretchEnd(AnyButNewline, s, start))
  }

  /** Where the port after a site ends. */
  function PortEnd(s: string, p: nat): nat
    requires SiteAt(s, p)
  {
    StretchEnd(Digit, s, ColonFrom(s, DigitsAfter(s, p)) + 1)
  }

  /** Exactly one dot between the site and the digits after it; everything else is kept. */
  function EnsureDot(s: string, p: nat): string
    requires SiteAt(s, p)
  {
    s[..p + 4] + "." + s[DigitsAfter(s, p)..]
  }

  /** The hostnames this repair is for: the last site of the first line is followed by nothing after its port. */
  predicate WholeName(s: string) {
    LastSite(s, 0).Some? && PortEnd(s, LastSite(s, 0).value) == |s|
  }

  predicate IsDigit(c: char) {
    '0' <= c <= '9'
  }

  /** The same on the characters: digits from q on, more up to a colon at k, and a digit after it. */
  predicate NumberedTo(s: string, q: nat, k: nat) {
    && q + 2 <= k && k + 1 < |s| && IsDigit(s[q]) && s[k] == ':' && IsDigit(s[k + 1])
    && forall j :: q <= j < k ==> s[j] != ':'
  }

  ghost predicate Numbered(s: string, q: nat) {
    exists k: nat :: NumberedTo(s, q, k)
  }

  /** A site, spelled out: "-a12" or "-a12." and then a digit, at least one character more, a colon and a digit. */
  lemma SiteExactly(s: string, p: nat)
    ensures SiteAt(s, p) <==>
              && p + 4 <= |s| && s[p] == '-' && 'a' <= s[p + 1] <= 'z' && IsDigit(s[p + 2]) && IsDigit(s[p + 3])
              && Numbered(s, if p + 4 < |s| && s[p + 4] == '.' then p + 5 else p + 4)
  {
    var q := DigitsAfter(s, p);
    if p + 4 <= |s| {
      if q <= |s| {
        var k := ColonFrom(s, q);
        if SiteAt(s, p) {
          assert NumberedTo(s, q, k);
        }
      }
      if k: nat :| NumberedTo(s, q, k) {
        StretchEndIs(NotColon, s, q, k);
      }
    }
  }

  /** A line ends before the first newline, or at the end. */
  lemma LineExactly(s: string, start: nat, e: nat)
    requires start <= e <= |s| && (forall j :: start <= j < e ==> s[j] != '\n') && (e < |s| ==> s[e] == '\n')
    ensures StretchEnd(AnyButNewline, s, start) == e
  {
    StretchEndIs(AnyButNewline, s, start, e);
  }

  // ---------- what the matcher finds ----------

  lemma MatchPort(s: string, i: nat)
    requires i <= |s|
    ensures Match(PORT, s, i)
            == if At(s, i, Colon) && At(s, i + 1, Digit) then Some([i + 1, StretchEnd(Digit, s, i + 1)]) else None
  {
    var rest := [Plus(Digit)];
    assert PORT == [One(Colon)] + rest;
    MatchOne(Colon, rest, s, i);
    if At(s, i, Colon) {
      var e := StretchEnd(Digit, s, i + 1);
      assert rest == [Plus(Digit)] + [];
      GreedyPlus(Digit, [], s, i + 1);
      assert Match([], s, e) == Some([]);
      var m := Match(rest, s, i + 1);
      if m.Some? {
        assert m.value == [m.value[0]] && m.value[0] == e;
        assert [i + 1] + m.value == [i + 1, e];
      }
    }
  }

  /** From i, everything up to the next colon, and the port after it. */
  lemma MatchHostRest(s: string, i: nat)
    requires i <= |s|
    ensures var k := ColonFrom(s, i);
            Match(HOST_REST, s, i)
            == if i < k && At(s, k, Colon) && At(s, k + 1, Digit)
               then Some([k, k + 1, StretchEnd(Digit, s, k + 1)]) else None
  {
    var k := ColonFrom(s, i);
    GreedyPlus(NotColon, PORT, s, i);
    forall j | i <= j <= k
      ensures j < k ==> Match(PORT, s, j).None?
    {
      MatchPort(s, j);
    }
    MatchPort(s, k);
    var m := Match(HOST_REST, s, i);
    if m.Some? {
      assert m.value[0] == k;
      assert m.value == [k] + m.value[1..];
      assert m.value[1..] == [k + 1, StretchEnd(Digit, s, k + 1)];
      assert m.value == [k, k + 1, StretchEnd(Digit, s, k + 1)];
    } else {
      assert i < k ==> Match(PORT, s, k).None?;
    }
  }

  /** However the digits and what follows them are split, the match is there iff the place is well-formed. */
  lemma MatchNumbered(s: string, q: nat)
    requires q <= |s|
    ensures match Match(NUMBERED, s, q)
            case None => !NumberedAt(s, q)
            case Some(ends) =>
              var k := ColonFrom(s, q);
              && NumberedAt(s, q) && q < ends[0] < k
              && ends == [ends[0], k, k + 1, StretchEnd(Digit, s, k + 1)]
  {
    var k := ColonFrom(s, q);
    GreedyPlus(Digit, HOST_REST, s, q);
    forall j | q <= j <= StretchEnd(Digit, s, q)
      ensures j <= k && ColonFrom(s, j) == k
      ensures Match(HOST_REST, s, j)
              == if j < k && At(s, k, Colon) && At(s, k + 1, Digit)
                 then Some([k, k + 1, StretchEnd(Digit, s, k + 1)]) else None
    {
      StretchEndIs(NotColon, s, j, k);
      MatchHostRest(s, j);
    }
    var m := Match(NUMBERED, s, q);
    if m.Some? {
      assert m.value == [m.value[0]] + m.value[1..];
    } else if At(s, q, Digit) {
      assert Match(HOST_REST, s, q + 1).None?;
    }
  }

  lemma MatchDotted(s: string, p: nat)
    requires p + 4 <= |s|
    ensures var q := DigitsAfter(s, p);
            match Match(DOTTED, s, p + 4)
            case None => !NumberedAt(s, q)
            case Some(ends) =>
              var k := ColonFrom(s, q);
              && NumberedAt(s, q) && q < ends[1] < k
              && ends == [q, ends[1], k, k + 1, StretchEnd(Digit, s, k + 1)]
  {
    MatchOpt(Period, NUMBERED, s, p + 4);
    MatchNumbered(s, p + 4);
    if At(s, p + 4, Period) {
      MatchNumbered(s, p + 5);
    }
  }

  lemma MatchSite(s: string, p: nat)
    requires p <= |s|
    ensures match Match(SITE, s, p)
            case None => !SiteAt(s, p)
            case Some(ends) =>
              && SiteAt(s, p)
              && var q := DigitsAfter(s, p); var k := ColonFrom(s, q);
              && |ends| == 9 && q < ends[5] < k
              && ends == [p + 1, p + 2, p + 3, p + 4, q, ends[5], k, k + 1, PortEnd(s, p)]
  {
    var r3 := [One(Digit)] + DOTTED;
    var r2 := [One(Digit)] + r3;
    var r1 := [One(LowerLetter)] + r2;
    MatchOne(Dash, r1, s, p);
    if At(s, p, Dash) {
      MatchOne(LowerLetter, r2, s, p + 1);
      if At(s, p + 1, LowerLetter) {
        MatchOne(Digit, r3, s, p + 2);
        if At(s, p + 2, Digit) {
          MatchOne(Digit, DOTTED, s, p + 3);
          if At(s, p + 3, Digit) {
            MatchDotted(s, p);
          }
        }
      }
    }
  }

  /** The greedy, backtracking match from `start` goes through the last site of the line. */
  lemma MatchPattern(s: string, start: nat)
    requires start <= |s|
    ensures match Match(PATTERN, s, start)
            case None => LastSite(s, start).None?
            case Some(ends) =>
              && LastSite(s, start) == Some(ends[0])
              && var p := ends[0]; var q := DigitsAfter(s, p); var k := ColonFrom(s, q);
              && |ends| == 10 && q < ends[6] < k
              && ends == [p, p + 1, p + 2, p + 3, p + 4, q, ends[6], k, k + 1, PortEnd(s, p)]
  {
    var e := StretchEnd(AnyButNewline, s, start);
    GreedyPlus(AnyButNewline, SITE, s, start);
    forall j | start <= j <= e
      ensures Match(SITE, s, j).Some? <==> SiteAt(s, j)
    {
      MatchSite(s, j);
    }
    var m := Match(PATTERN, s, start);
    if m.Some? {
      MatchSite(s, m.value[0]);
      assert m.value == [m.value[0]] + m.value[1..];
    }
  }

  // ---------- the repair ----------

  /** A site is found and the match ends at e, for the leftmost start with a site on its line. */
  lemma FindPattern(s: string, i: nat)
    requires i <= |s|
    ensures match Find(PATTERN, s, i)
            case None => forall j :: i <= j <= |s| ==> LastSite(s, j).None?
            case Some((start, ends)) =>
              && i <= start <= |s| && LastSite(s, start).Some? && |ends| == 10
              && (start > i ==> LastSite(s, i).None?)
              && var p := LastSite(s, start).value;
                 ends[9] == PortEnd(s, p)
                 && Groups(s, start, ends) == Some(Piece(s, start, p))
    decreases |s| - i
  {
    MatchPattern(s, i);
    if Match(PATTERN, s, i).Some? {
      GroupsJoin(s, i, Match(PATTERN, s, i).value);
    } else if i < |s| {
      FindPattern(s, i + 1);
    }
  }

  /** What the groups of a match from `start` through a site at p are put together to. */
  function Piece(s: string, start: nat, p: nat): string
    requires start <= p && SiteAt(s, p)
  {
    s[start..p + 4] + "." + s[DigitsAfter(s, p)..PortEnd(s, p)]
  }

  /** The split between the digits and what follows them does not show in the result. */
  lemma GroupsJoin(s: string, start: nat, ends: seq<nat>)
    requires start <= |s| && |ends| == 10 && start < ends[0] && SiteAt(s, ends[0])
    requires var p := ends[0]; var q := DigitsAfter(s, p); var k := ColonFrom(s, q);
             q < ends[6] < k && ends == [p, p + 1, p + 2, p + 3, p + 4, q, ends[6], k, k + 1, PortEnd(s, p)]
    ensures Groups(s, start, ends) == Some(Piece(s, start, ends[0]))
  {
    var p := ends[0];
    var q, k, e := DigitsAfter(s, p), ColonFrom(s, DigitsAfter(s, p)), PortEnd(s, p);
    assert s[q..ends[6]] + s[ends[6]..k] == s[q..k];
    assert s[q..k] + ":" + s[k + 1..e] == s[q..e];
    var head := s[start..p + 4] + ".";
    assert head + s[q..ends[6]] + s[ends[6]..k] + ":" + s[k + 1..e]
           == head + (s[q..ends[6]] + s[ends[6]..k] + ":" + s[k + 1..e]);
  }

  /** The whole hostname takes part in the leftmost match. */
  predicate MatchConsumes(s: string) {
    match Find(PATTERN, s, 0)
    case None => false
    case Some((start, ends)) => start == 0 && |ends| == 10 && ends[9] == |s|
  }

  /**
    The regular expression refines a direct scan: the match consumes the whole hostname iff the last site of the first
    line is followed by nothing after its port, and then the rewrite ensures exactly one dot after that site.
  */
  lemma RewriteIsScan(s: string)
    ensures MatchConsumes(s) <==> WholeName(s)
    ensures WholeName(s) && Contains(s, "compose.direct") ==>
              FixComposeDirectHostname(s) == Some(EnsureDot(s, LastSite(s, 0).value))
    ensures !Contains(s, "compose.direct") ==> FixComposeDirectHostname(s) == Some(s)
  {
    FindPattern(s, 0);
    if WholeName(s) {
      var p := LastSite(s, 0).value;
      assert s[0..p + 4] == s[..p + 4];
      assert s[DigitsAfter(s, p)..|s|] == s[DigitsAfter(s, p)..];
    }
  }

  // ---------- idempotence ----------

  /** t is s with one dot inserted at m. */
  predicate DotInserted(s: string, t: string, m: nat) {
    m <= |s| && t == s[..m] + "." + s[m..]
  }

  lemma {:induction false} StretchEndShifts(c: Class, s: string, t: string, m: nat, i: nat)
    requires DotInserted(s, t, m) && m <= i <= |s|
    ensures StretchEnd(c, t, i + 1) == StretchEnd(c, s, i) + 1
    decreases |s| - i
  {
    if At(s, i, c) {
      StretchEndShifts(c, s, t, m, i + 1);
    }
  }

  lemma NumberedShifts(s: string, t: string, m: nat, q: nat)
    requires DotInserted(s, t, m) && m <= q <= |s|
    ensures NumberedAt(t, q + 1) == NumberedAt(s, q)
    ensures ColonFrom(t, q + 1) == ColonFrom(s, q) + 1
  {
    StretchEndShifts(NotColon, s, t, m, q);
  }

  lemma SiteShifts(s: string, t: string, m: nat, p: nat)
    requires DotInserted(s, t, m) && m <= p && p + 4 <= |s|
    ensures SiteAt(t, p + 1) == SiteAt(s, p)
  {
    NumberedShifts(s, t, m, p + 4);
    if p + 5 <= |s| {
      NumberedShifts(s, t, m, p + 5);
    }
  }

  lemma LastSiteUnique(s: string, start: nat, limit: nat, p: nat)
    requires start < p <= limit && SiteAt(s, p)
    requires forall x :: p < x <= limit ==> !SiteAt(s, x)
    ensures LastSiteUpTo(s, start, limit) == Some(p)
  {
  }

  /** The line a site is on goes on past the site's two digits and one more character. */
  lemma LineHoldsSite(s: string, p: nat, d: nat)
    requires d <= |s| && !At(s, d, AnyButNewline) && p <= d && SiteAt(s, p) && !At(s, p + 4, Period)
    ensures p + 4 < d
  {
  }

  lemma LineShifts(s: string, t: string, m: nat)
    requires DotInserted(s, t, m) && m < StretchEnd(AnyButNewline, s, 0)
    ensures StretchEnd(AnyButNewline, t, 0) == StretchEnd(AnyButNewline, s, 0) + 1
  {
    var d := StretchEnd(AnyButNewline, s, 0);
    forall j | 0 <= j < d + 1
      ensures In(AnyButNewline, t[j])
    {
      assert t[j] == if j < m then s[j] else if j == m then '.' else s[j - 1];
    }
    StretchEndIs(AnyButNewline, t, 0, d + 1);
  }

  lemma SameBefore(s: string, t: string, m: nat, p: nat)
    requires DotInserted(s, t, m) && p + 4 <= m
    ensures At(t, p, Dash) == At(s, p, Dash) && At(t, p + 1, LowerLetter) == At(s, p + 1, LowerLetter)
    ensures At(t, p + 2, Digit) == At(s, p + 2, Digit) && At(t, p + 3, Digit) == At(s, p + 3, Digit)
    ensures At(t, m, Period)
  {
  }

  lemma SiteGetsDot(s: string, t: string, p: nat)
    requires SiteAt(s, p) && !At(s, p + 4, Period) && DotInserted(s, t, p + 4)
    ensures SiteAt(t, p) && At(t, p + 4, Period) && PortEnd(t, p) == PortEnd(s, p) + 1
  {
    NumberedShifts(s, t, p + 4, p + 4);
    SameBefore(s, t, p + 4, p);
    assert DigitsAfter(s, p) == p + 4 && DigitsAfter(t, p) == p + 5;
    StretchEndShifts(Digit, s, t, p + 4, ColonFrom(s, p + 4) + 1);
  }

  lemma NoLaterSite(s: string, t: string, p: nat, x: nat)
    requires SiteAt(s, p) && DotInserted(s, t, p + 4) && p < x
    requires x > p + 4 ==> !SiteAt(s, x - 1)
    ensures !SiteAt(t, x)
  {
    if x <= p + 4 {
      assert !In(Dash, t[x]);
    } else if x + 3 <= |s| {
      SiteShifts(s, t, p + 4, x - 1);
    }
  }

  /** Inserting the missing dot after the last site leaves that site the last one, and the name whole. */
  lemma SiteStaysLast(s: string, t: string, p: nat)
    requires WholeName(s) && LastSite(s, 0) == Some(p)
    requires !At(s, p + 4, Period) && DotInserted(s, t, p + 4)
    ensures WholeName(t) && LastSite(t, 0) == Some(p) && At(t, p + 4, Period)
  {
    var d := StretchEnd(AnyButNewline, s, 0);
    assert p + 4 < d && StretchEnd(AnyButNewline, t, 0) == d + 1 by {
      LineHoldsSite(s, p, d);
      LineShifts(s, t, p + 4);
    }
    assert SiteAt(t, p) && At(t, p + 4, Period) && PortEnd(t, p) == |t| by {
      SiteGetsDot(s, t, p);
    }
    NoLaterSites(s, t, p, d);
    LastSiteUnique(t, 0, d + 1, p);
  }

  lemma NoLaterSites(s: string, t: string, p: nat, d: nat)
    requires SiteAt(s, p) && DotInserted(s, t, p + 4)
    requires forall x :: p < x <= d ==> !SiteAt(s, x)
    ensures forall x :: p < x <= d + 1 ==> !SiteAt(t, x)
  {
    forall x | p < x <= d + 1
      ensures !SiteAt(t, x)
    {
      NoLaterSite(s, t, p, x);
    }
  }

  lemma DirectKept(s: string, t: string, m: nat)
    requires DotInserted(s, t, m) && m > 0 && At(s, m - 1, Digit)
    requires Contains(s, "compose.direct")
    ensures Contains(t, "compose.direct")
  {
    var w := "compose.direct";
    var i :| 0 <= i <= |s| && OccursAt(s, w, i);
    if i + |w| <= m {
      assert t[i..i + |w|] == s[i..i + |w|];
      assert OccursAt(t, w, i);
    } else if m <= i {
      assert t[i + 1..i + 1 + |w|] == s[i..i + |w|];
      assert OccursAt(t, w, i + 1);
    } else {
      NoDigitIn(m - 1 - i);
    }
  }

  lemma NoDigitIn(k: nat)
    requires k < |"compose.direct"|
    ensures !In(Digit, "compose.direct"[k])
  {
  }

  lemma EnsureDotKeeps(s: string, p: nat)
    requires SiteAt(s, p) && At(s, p + 4, Period)
    ensures EnsureDot(s, p) == s
  {
  }

  /** s is a whole name, and ensuring the dot after its last site gives r. */
  ghost predicate Settles(s: string, r: string) {
    exists p | 0 <= p < |s| && LastSite(s, 0) == Some(p) :: WholeName(s) && EnsureDot(s, p) == r
  }

  /** Ensuring the dot keeps a whole name or inserts one dot, and doing it again changes nothing. */
  lemma SettlesOnce(s: string, r: string)
    requires Settles(s, r)
    ensures Settles(r, r) && (r == s || exists m :: DotInserted(s, r, m))
  {
    var p :| 0 <= p < |s| && LastSite(s, 0) == Some(p) && EnsureDot(s, p) == r;
    if At(s, p + 4, Period) {
      EnsureDotKeeps(s, p);
    } else {
      assert DotInserted(s, r, p + 4);
      SiteStaysLast(s, r, p);
      EnsureDotKeeps(r, p);
    }
  }

  lemma EnsureDotContains(s: string, p: nat)
    requires SiteAt(s, p) && Contains(s, "compose.direct")
    ensures Contains(EnsureDot(s, p), "compose.direct")
  {
    if At(s, p + 4, Period) {
      EnsureDotKeeps(s, p);
    } else {
      DirectKept(s, EnsureDot(s, p), p + 4);
    }
  }

  /** Repairing is conservative: a hostname it is for is kept, or gets one dot inserted, and stays such a hostname. */
  lemma RepairConservative(s: string)
    requires WholeName(s) && Contains(s, "compose.direct")
    ensures var r := FixComposeDirectHostname(s);
            && r.Some?
            && (r.value == s || exists m :: DotInserted(s, r.value, m))
            && WholeName(r.value) && Contains(r.value, "compose.direct")
  {
    RewriteIsScan(s);
    EnsureDotContains(s, LastSite(s, 0).value);
    SettlesOnce(s, FixComposeDirectHostname(s).value);
  }

  // ---------- the part of a hostname that takes part in a match ----------

  /** u is s from start up to e. */
  predicate Cut(s: string, u: string, start: nat, e: nat) {
    start <= e <= |s| && u == s[start..e]
  }

  lemma StretchCut(c: Class, s: string, u: string, start: nat, e: nat, i: nat)
    requires Cut(s, u, start, e) && i <= |u|
    ensures var far := StretchEnd(c, s, start + i);
            StretchEnd(c, u, i) == if far < e then far - start else |u|
  {
    var far := StretchEnd(c, s, start + i);
    StretchEndIs(c, u, i, if far < e then far - start else |u|);
  }

  lemma SiteOfCut(s: string, u: string, start: nat, e: nat, x: nat)
    requires Cut(s, u, start, e) && SiteAt(u, x)
    ensures SiteAt(s, start + x)
  {
    StretchCut(NotColon, s, u, start, e, DigitsAfter(u, x));
  }

  lemma SiteInCut(s: string, u: string, start: nat, e: nat, p: nat)
    requires Cut(s, u, start, e) && start <= p && SiteAt(s, p) && e == PortEnd(s, p)
    ensures SiteAt(u, p - start) && PortEnd(u, p - start) == |u|
    ensures DigitsAfter(u, p - start) == DigitsAfter(s, p) - start
  {
    StretchCut(NotColon, s, u, start, e, DigitsAfter(s, p) - start);
    StretchCut(Digit, s, u, start, e, ColonFrom(s, DigitsAfter(s, p)) + 1 - start);
  }

  lemma CutKeepsLastSite(s: string, u: string, start: nat, p: nat)
    requires start <= |s| && LastSite(s, start) == Some(p) && Cut(s, u, start, PortEnd(s, p))
    requires SiteAt(u, p - start)
    ensures LastSite(u, 0) == Some(p - start)
  {
    var limit := StretchEnd(AnyButNewline, u, 0);
    StretchCut(AnyButNewline, s, u, start, PortEnd(s, p), 0);
    forall x | p - start < x <= limit
      ensures !SiteAt(u, x)
    {
      if SiteAt(u, x) {
        SiteOfCut(s, u, start, PortEnd(s, p), x);
        assert false;
      }
    }
    LastSiteUnique(u, 0, limit, p - start);
  }

  /** What a match consumes is by itself a whole name, with the same last site and the same outcome. */
  lemma CutIsWhole(s: string, u: string, start: nat, p: nat)
    requires start <= |s| && LastSite(s, start) == Some(p) && Cut(s, u, start, PortEnd(s, p))
    ensures WholeName(u) && LastSite(u, 0) == Some(p - start) && EnsureDot(u, p - start) == Piece(s, start, p)
  {
    SiteInCut(s, u, start, PortEnd(s, p), p);
    assert EnsureDot(u, p - start) == Piece(s, start, p) by {
      assert u[..p - start + 4] == s[start..p + 4];
      assert u[DigitsAfter(u, p - start)..] == s[DigitsAfter(s, p)..PortEnd(s, p)];
    }
    CutKeepsLastSite(s, u, start, p);
  }

  lemma CutSettles(s: string, u: string, start: nat, p: nat)
    requires start <= |s| && LastSite(s, start) == Some(p) && Cut(s, u, start, PortEnd(s, p))
    ensures Settles(u, Piece(s, start, p))
  {
    CutIsWhole(s, u, start, p);
  }

  lemma PieceSettled(s: string, start: nat, p: nat)
    requires start <= |s| && LastSite(s, start) == Some(p)
    ensures Settles(Piece(s, start, p), Piece(s, start, p))
  {
    CutSettles(s, s[start..PortEnd(s, p)], start, p);
    SettlesOnce(s[start..PortEnd(s, p)], Piece(s, start, p));
  }

  /** The hostnames that need no repair are exactly the whole names that have the dot after their last site. */
  lemma KeptExactly(s: string)
    requires Contains(s, "compose.direct")
    ensures FixComposeDirectHostname(s) == Some(s) <==> Settles(s, s)
  {
    if Settles(s, s) {
      RewriteIsScan(s);
    }
    if FixComposeDirectHostname(s) == Some(s) {
      RewriteSettled(s);
    }
  }

  /** What a hostname with a match is rewritten to is settled. */
  lemma RewriteSettled(s: string)
    requires Contains(s, "compose.direct") && FixComposeDirectHostname(s).Some?
    ensures Settles(FixComposeDirectHostname(s).value, FixComposeDirectHostname(s).value)
  {
    FindPattern(s, 0);
    var (start, ends) := Find(PATTERN, s, 0).value;
    PieceSettled(s, start, LastSite(s, start).value);
  }

  /** Repairing is idempotent, on every hostname it does not panic on, wherever in it the match is. */
  lemma RepairIdempotent(s: string)
    requires FixComposeDirectHostname(s).Some?
    ensures FixComposeDirectHostname(FixComposeDirectHostname(s).value) == FixComposeDirectHostname(s)
  {
    if Contains(s, "compose.direct") {
      RewriteSettled(s);
      if Contains(FixComposeDirectHostname(s).value, "compose.direct") {
        KeptExactly(FixComposeDirectHostname(s).value);
      }
    }
  }

  // ---------- outside the intended hostnames ----------

  /** The rewrite panics exactly on names that mention the domain and have no site on any line. */
  lemma PanicsExactly(s: string)
    ensures FixComposeDirectHostname(s).None? <==>
            Contains(s, "compose.direct") && forall j :: 0 <= j <= |s| ==> LastSite(s, j).None?
  {
    FindPattern(s, 0);
  }

  /** Text before or after the match is dropped, and one added dot never makes up for it. */
  lemma PieceShorter(s: string, start: nat, p: nat)
    requires start < p && SiteAt(s, p) && !(start == 0 && PortEnd(s, p) == |s|)
    ensures Piece(s, start, p) != s && forall m :: !DotInserted(s, Piece(s, start, p), m)
  {
    var r, q, e := Piece(s, start, p), DigitsAfter(s, p), PortEnd(s, p);
    assert |r| == e - start + if q == p + 4 then 1 else 0;
    assert r[p - start] == s[p] && r[p + 1 - start] == s[p + 1] && r[p + 4 - start] == '.';
  }

  /** Where the rewrite does not panic, it is conservative iff the hostname is one it is for. */
  lemma ConservativeExactly(s: string)
    requires Contains(s, "compose.direct") && FixComposeDirectHostname(s).Some?
    ensures var r := FixComposeDirectHostname(s).value;
            (r == s || exists m :: DotInserted(s, r, m)) <==> WholeName(s)
  {
    FindPattern(s, 0);
    if WholeName(s) {
      RepairConservative(s);
    } else {
      var (start, ends) := Find(PATTERN, s, 0).value;
      PieceShorter(s, start, LastSite(s, start).value);
    }
  }

  /** A name without a dash is one it panics on. */
  lemma NoDashPanics(s: string)
    requires Contains(s, "compose.direct") && '-' !in s
    ensures FixComposeDirectHostname(s).None?
  {
    PanicsExactly(s);
  }

  lemma BareDomainPanics()
    ensures FixComposeDirectHostname("compose.direct:443").None?
  {
    assert OccursAt("compose.direct:443", "compose.direct", 0);
    NoDashPanics("compose.direct:443");
  }

  lemma SiteOfLonger(s: string, c: char, x: nat)
    requires !In(Digit, c) && SiteAt(s + [c], x)
    ensures SiteAt(s, x)
  {
    var t := s + [c];
    var q := DigitsAfter(t, x);
    assert ColonFrom(t, q) + 1 < |s|;
    StretchCut(NotColon, t, s, 0, |s|, q);
  }

  lemma LongerKeepsLastSite(s: string, c: char)
    requires WholeName(s) && !In(Digit, c)
    ensures LastSite(s + [c], 0) == LastSite(s, 0)
  {
    var t, p := s + [c], LastSite(s, 0).value;
    var limit := StretchEnd(AnyButNewline, t, 0);
    StretchCut(AnyButNewline, t, s, 0, |s|, 0);
    SiteOfCut(t, s, 0, |s|, p);
    forall x | p < x <= limit
      ensures !SiteAt(t, x)
    {
      if SiteAt(t, x) {
        SiteOfLonger(s, c, x);
        assert false;
      }
    }
    LastSiteUnique(t, 0, limit, p);
  }

  /** It drops what follows the port: every good name shows that, with one more character that is not a digit. */
  lemma TrailingTextDropped(s: string, c: char)
    requires WholeName(s) && Contains(s, "compose.direct") && !In(Digit, c)
    ensures FixComposeDirectHostname(s + [c]) == FixComposeDirectHostname(s)
    ensures !WholeName(s + [c])
  {
    var t, p := s + [c], LastSite(s, 0).value;
    LongerKeepsLastSite(s, c);
    LongerKeepsPort(s, c, p);
    LongerContains(s, c, "compose.direct");
    RewrittenTo(s, p);
    RewrittenTo(t, p);
    SamePiece(s, c, p);
  }

  /** A last site on the first line decides what the rewrite gives. */
  lemma RewrittenTo(s: string, p: nat)
    requires Contains(s, "compose.direct") && LastSite(s, 0) == Some(p)
    ensures FixComposeDirectHostname(s) == Some(Piece(s, 0, p))
  {
    FindPattern(s, 0);
  }

  lemma SamePiece(s: string, c: char, p: nat)
    requires SiteAt(s, p) && SiteAt(s + [c], p) && PortEnd(s + [c], p) == PortEnd(s, p) <= |s|
    requires DigitsAfter(s + [c], p) == DigitsAfter(s, p)
    ensures Piece(s + [c], 0, p) == Piece(s, 0, p)
  {
    assert (s + [c])[0..p + 4] == s[0..p + 4];
    assert (s + [c])[DigitsAfter(s, p)..PortEnd(s, p)] == s[DigitsAfter(s, p)..PortEnd(s, p)];
  }

  lemma LongerKeepsPort(s: string, c: char, p: nat)
    requires SiteAt(s, p) && PortEnd(s, p) == |s| && !In(Digit, c)
    ensures SiteAt(s + [c], p) && PortEnd(s + [c], p) == |s| && DigitsAfter(s + [c], p) == DigitsAfter(s, p)
  {
    var t, q := s + [c], DigitsAfter(s, p);
    var k := ColonFrom(s, q);
    assert forall j :: 0 <= j < |s| ==> t[j] == s[j];
    StretchEndIs(NotColon, t, q, k);
    StretchEndIs(Digit, t, k + 1, |s|);
  }

  lemma LongerContains(s: string, c: char, w: string)
    requires Contains(s, w)
    ensures Contains(s + [c], w)
  {
    var i :| 0 <= i <= |s| && OccursAt(s, w, i);
    assert (s + [c])[i..i + |w|] == s[i..i + |w|];
    assert OccursAt(s + [c], w, i);
  }
}
