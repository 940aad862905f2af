/** JSON texts (RFC 8259) as Go's encoding/json prints and parses them. */
module Json {
  import opened Wrappers
  import Hex

  datatype Value =
    | Null
    | Bool(truth: bool)
    | Number(digits: string)
    | Text(text: string)
    | List(items: seq<Value>)
    | Object(members: seq<Member>)

  datatype Member = Member(name: string, value: Value)

  // ---------- printing ----------

  /** One character inside a JSON string, escaped as section 7 of RFC 8259 allows; `<`, `>` and `&` are escaped too. */
  function EscapeChar(c: char): string {
    if c == '"' || c == '\\' then ['\\', c]
    else if c == '\n' then ['\\', 'n']
    else if c == '\r' then ['\\', 'r']
    else if c == '\t' then ['\\', 't']
    else if c < ' ' || c == '<' || c == '>' || c == '&' then
      ['\\', 'u', '0', '0', Hex.LowerDigit(c as int / 16), Hex.LowerDigit(c as int % 16)]
    else if c == '\U{2028}' || c == '\U{2029}' then ['\\', 'u', '2', '0', '2', Hex.LowerDigit(c as int % 16)]
    else [c]
  }

  /** Characters that may stand in the output: no control characters, and none that HTML or JavaScript would act on. */
  predicate Harmless(c: char) {
    c >= ' ' && c != '<' && c != '>' && c != '&' && c != '\U{2028}' && c != '\U{2029}'
  }

  // Each printer takes the text that follows what it prints.

  function Escape(s: string, after: string): string {
    if s == [] then after else EscapeChar(s[0]) + Escape(s[1..], after)
  }

  function Quote(s: string, after: string): string {
    ['"'] + Escape(s, ['"'] + after)
  }

  // They put the same gap at every place where the grammar allows space; Go's own printer puts none.

  function PrintValue(v: Value, gap: string, after: string): string
    decreases v
  {
    match v
    case Null => "null" + after
    case Bool(truth) => (if truth then "true" else "false") + after
    case Number(digits) => digits + after
    case Text(s) => Quote(s, after)
    case List(items) =>
      ['['] + if items == [] then gap + ([']'] + after) else PrintItems(items, gap, after)
    case Object(members) =>
      ['{'] + if members == [] then gap + (['}'] + after) else PrintMembers(members, gap, after)
  }

  function PrintItems(items: seq<Value>, gap: string, after: string): string
    requires items != []
    decreases items
  {
    var rest := if |items| == 1 then [']'] + after else [','] + PrintItems(items[1..], gap, after);
    gap + PrintValue(items[0], gap, gap + rest)
  }

  function PrintMembers(members: seq<Member>, gap: string, after: string): string
    requires members != []
    decreases members
  {
    var rest := if |members| == 1 then ['}'] + after else [','] + PrintMembers(members[1..], gap, after);
    PrintMember(members[0], gap, gap + rest)
  }

  function PrintMember(m: Member, gap: string, after: string): string
    decreases m
  {
    gap + Quote(m.name, gap + ([':'] + (gap + PrintValue(m.value, gap, after))))
  }

  function PrintSpaced(v: Value, gap: string): string {
    gap + PrintValue(v, gap, gap)
  }

  function Print(v: Value): string {
    PrintSpaced(v, [])
  }

  // What printing comes to without gaps.

  lemma Unspaced(t: string)
    ensures [] + t == t
  {
  }

  lemma UnspacedItems(items: seq<Value>, after: string)
    requires items != []
    ensures PrintItems(items, [], after)
            == PrintValue(items[0], [],
                          if |items| == 1 then [']'] + after else [','] + PrintItems(items[1..], [], after))
  {
    var rest := if |items| == 1 then [']'] + after else [','] + PrintItems(items[1..], [], after);
    Unspaced(rest);
    Unspaced(PrintValue(items[0], [], rest));
  }

  lemma UnspacedMembers(members: seq<Member>, after: string)
    requires members != []
    ensures PrintMembers(members, [], after)
            == PrintMember(members[0], [],
                           if |members| == 1 then ['}'] + after else [','] + PrintMembers(members[1..], [], after))
  {
    var rest := if |members| == 1 then ['}'] + after else [','] + PrintMembers(members[1..], [], after);
    Unspaced(rest);
  }

  lemma UnspacedMember(m: Member, after: string)
    ensures PrintMember(m, [], after) == Quote(m.name, [':'] + PrintValue(m.value, [], after))
  {
    var value := PrintValue(m.value, [], after);
    Unspaced(value);
    Unspaced([':'] + value);
    Unspaced(Quote(m.name, [':'] + value));
  }

  // ---------- numbers ----------

  predicate IsDigit(c: char) {
    '0' <= c <= '9'
  }

  /** The end of the digits that start at i. */
  function DigitsEnd(t: string, i: nat): (e: nat)
    requires i <= |t|
    ensures i <= e <= |t|
    decreases |t| - i
  {
    if i < |t| && IsDigit(t[i]) then DigitsEnd(t, i + 1) else i
  }

  function IntegerEnd(t: string, i: nat): (e: Option<nat>)
    requires i <= |t|
    ensures e.Some? ==> i < e.value <= |t|
  {
    if i == |t| || !IsDigit(t[i]) then None
    else if t[i] == '0' then Some(i + 1)
    else Some(DigitsEnd(t, i + 1))
  }

  function FractionEnd(t: string, i: nat): (e: Option<nat>)
    requires i <= |t|
    ensures e.Some? ==> i <= e.value <= |t|
  {
    if i == |t| || t[i] != '.' then Some(i)
    else if DigitsEnd(t, i + 1) > i + 1 then Some(DigitsEnd(t, i + 1))
    else None
  }

  function ExponentEnd(t: string, i: nat): (e: Option<nat>)
    requires i <= |t|
    ensures e.Some? ==> i <= e.value <= |t|
  {
    if i == |t| || (t[i] != 'e' && t[i] != 'E') then Some(i)
    else
      var j := if i + 1 < |t| && (t[i + 1] == '+' || t[i + 1] == '-') then i + 2 else i + 1;
      if DigitsEnd(t, j) > j then Some(DigitsEnd(t, j)) else None
  }

  /** How many characters at the start of t spell a number; None if they do not. */
  function NumberEnd(t: string): (e: Option<nat>)
    ensures e.Some? ==> 0 < e.value <= |t|
  {
    match IntegerEnd(t, if t != [] && t[0] == '-' then 1 else 0)
    case None => None
    case Some(i) =>
      match FractionEnd(t, i)
      case None => None
      case Some(f) => ExponentEnd(t, f)
  }

  // ---------- parsing ----------

  datatype Scan<+T> = Scanned(value: T, rest: string) | Malformed

  predicate IsBlank(c: char) {
    c == ' ' || c == '\t' || c == '\n' || c == '\r'
  }

  function SkipSpace(t: string): (r: string)
    ensures |r| <= |t|
  {
    if t != [] && IsBlank(t[0]) then SkipSpace(t[1..]) else t
  }

  /** The four hexadecimal digits after a `\u` at the start of t, if they are there. */
  function UnicodeEscape(t: string): (r: Option<nat>)
    ensures r.Some? ==> r.value < 0x10000
  {
    if |t| < 6 || t[0] != '\\' || t[1] != 'u' then None
    else
      match (Hex.Value(t[2]), Hex.Value(t[3]), Hex.Value(t[4]), Hex.Value(t[5]))
      case (Some(a), Some(b), Some(c), Some(d)) =>
        assert a < 16 && b < 16 && c < 16 && d < 16;
        Some(a * 4096 + b * 256 + c * 16 + d)
      case _ => None
  }

  function SimpleEscape(c: char): Option<char> {
    if c == '"' || c == '\\' || c == '/' then Some(c)
    else if c == 'b' then Some('\U{0008}')
    else if c == 'f' then Some('\U{000C}')
    else if c == 'n' then Some('\n')
    else if c == 'r' then Some('\r')
    else if c == 't' then Some('\t')
    else None
  }

  /** The first character of a string body and how many characters of t spell it. */
  function ScanChar(t: string): (r: Option<(char, nat)>)
    requires t != []
    ensures r.Some? ==> 0 < r.value.1 <= |t|
  {
    if t[0] != '\\' then if t[0] < ' ' then None else Some((t[0], 1))
    else if |t| == 1 then None
    else if SimpleEscape(t[1]).Some? then Some((SimpleEscape(t[1]).value, 2))
    else
      match UnicodeEscape(t)
      case None => None
      case Some(n) =>
        if n < 0xD800 || 0xE000 <= n then Some((n as char, 6))
        else
          match UnicodeEscape(t[6..])
          case Some(m) =>
            if n < 0xDC00 && 0xDC00 <= m < 0xE000
            then Some(((0x10000 + (n - 0xD800) * 0x400 + (m - 0xDC00)) as char, 12))
            else Some(('\U{FFFD}', 6))
          case None => Some(('\U{FFFD}', 6))
  }

  /** The rest of a string whose opening quote has been read. */
  function ScanText(t: string): (r: Scan<string>)
    ensures r.Scanned? ==> |r.rest| < |t|
  {
    if t == [] then Malformed
    else if t[0] == '"' then Scanned([], t[1..])
    else
      match ScanChar(t)
      case None => Malformed
      case Some((c, n)) =>
        match ScanText(t[n..])
        case Malformed => Malformed
        case Scanned(s, rest) => Scanned([c] + s, rest)
  }

  function ScanQuoted(t: string): (r: Scan<string>)
    ensures r.Scanned? ==> |r.rest| < |t|
  {
    if t != [] && t[0] == '"' then ScanText(t[1..]) else Malformed
  }

  function ScanValue(t: string): (r: Scan<Value>)
    ensures r.Scanned? ==> |r.rest| < |t|
    decreases |t|, 0
  {
    if t == [] then Malformed
    else if t[0] == '"' then
      match ScanQuoted(t)
      case Scanned(s, rest) => Scanned(Text(s), rest)
      case Malformed => Malformed
    else if t[0] == '[' then
      var u := SkipSpace(t[1..]);
      if u != [] && u[0] == ']' then Scanned(List([]), u[1..])
      else
        match ScanItems(t[1..])
        case Scanned(items, rest) => Scanned(List(items), rest)
        case Malformed => Malformed
    else if t[0] == '{' then
      var u := SkipSpace(t[1..]);
      if u != [] && u[0] == '}' then Scanned(Object([]), u[1..])
      else
        match ScanMembers(t[1..])
        case Scanned(members, rest) => Scanned(Object(members), rest)
        case Malformed => Malformed
    else ScanPlain(t)
  }

  /** A literal or a number. */
  function ScanPlain(t: string): (r: Scan<Value>)
    ensures r.Scanned? ==> |r.rest| < |t|
  {
    if "null" <= t then Scanned(Null, t[4..])
    else if "true" <= t then Scanned(Bool(true), t[4..])
    else if "false" <= t then Scanned(Bool(false), t[5..])
    else
      match NumberEnd(t)
      case Some(n) => Scanned(Number(t[..n]), t[n..])
      case None => Malformed
  }

  /** One or more values and the closing bracket. */
  function ScanItems(t: string): (r: Scan<seq<Value>>)
    ensures r.Scanned? ==> |r.rest| < |t|
    decreases |t|, 2
  {
    match ScanValue(SkipSpace(t))
    case Malformed => Malformed
    case Scanned(v, rest) =>
      var u := SkipSpace(rest);
      if u != [] && u[0] == ']' then Scanned([v], u[1..])
      else if u != [] && u[0] == ',' then
        match ScanItems(u[1..])
        case Malformed => Malformed
        case Scanned(items, rest') => Scanned([v] + items, rest')
      else Malformed
  }

  function ScanMember(t: string): (r: Scan<Member>)
    ensures r.Scanned? ==> |r.rest| < |t|
    decreases |t|, 1
  {
    match ScanQuoted(SkipSpace(t))
    case Malformed => Malformed
    case Scanned(name, rest) =>
      var u := SkipSpace(rest);
      if u == [] || u[0] != ':' then Malformed
      else
        match ScanValue(SkipSpace(u[1..]))
        case Malformed => Malformed
        case Scanned(v, rest') => Scanned(Member(name, v), rest')
  }

  /** One or more members and the closing brace. */
  function ScanMembers(t: string): (r: Scan<seq<Member>>)
    ensures r.Scanned? ==> |r.rest| < |t|
    decreases |t|, 2
  {
    match ScanMember(t)
    case Malformed => Malformed
    case Scanned(m, rest) =>
      var u := SkipSpace(rest);
      if u != [] && u[0] == '}' then Scanned([m], u[1..])
      else if u != [] && u[0] == ',' then
        match ScanMembers(u[1..])
        case Malformed => Malformed
        case Scanned(members, rest') => Scanned([m] + members, rest')
      else Malformed
  }

  /** One value with nothing but space around it. */
  function Parse(t: string): Option<Value> {
    match ScanValue(SkipSpace(t))
    case Scanned(v, rest) => if SkipSpace(rest) == [] then Some(v) else None
    case Malformed => None
  }

  // ---------- the round trip: texts ----------

  lemma ScanEscapedChar(c: char, rest: string)
    ensures EscapeChar(c) != [] && EscapeChar(c)[0] != '"'
    ensures ScanChar(EscapeChar(c) + rest) == Some((c, |EscapeChar(c)|))
  {
    var e := EscapeChar(c);
    var t := e + rest;
    if |e| == 6 {
      Hex.RoundTrip(c as int / 16 % 16);
      Hex.RoundTrip(c as int % 16);
      assert t[0] == e[0] && t[1] == e[1] && t[2] == e[2] && t[3] == e[3] && t[4] == e[4] && t[5] == e[5];
      assert UnicodeEscape(t) == Some(c as int);
    }
  }

  lemma {:induction false} ScanEscaped(s: string, after: string)
    ensures ScanText(Escape(s, ['"'] + after)) == Scanned(s, after)
  {
    if s == [] {
      assert (['"'] + after)[1..] == after;
    } else {
      var tail := Escape(s[1..], ['"'] + after);
      ScanEscapedChar(s[0], tail);
      assert (EscapeChar(s[0]) + tail)[|EscapeChar(s[0])|..] == tail;
      ScanEscaped(s[1..], after);
      assert [s[0]] + s[1..] == s;
    }
  }

  lemma ScanQuote(s: string, after: string)
    ensures ScanQuoted(SkipSpace(Quote(s, after))) == Scanned(s, after)
  {
    ScanEscaped(s, after);
    assert Quote(s, after)[1..] == Escape(s, ['"'] + after);
  }

  lemma {:induction false} EscapedHarmless(s: string, after: string)
    requires forall c :: c in after ==> Harmless(c)
    ensures forall c :: c in Escape(s, after) ==> Harmless(c)
  {
    if s != [] {
      EscapedHarmless(s[1..], after);
    }
  }

  // ---------- the round trip: numbers ----------

  /** What can follow a value in a document. */
  predicate Ends(after: string) {
    after == [] || after[0] == ',' || after[0] == ']' || after[0] == '}' || IsBlank(after[0])
  }

  predicate Blank(gap: string) {
    forall i :: 0 <= i < |gap| ==> gap[i] == ' ' || gap[i] == '\t' || gap[i] == '\n' || gap[i] == '\r'
  }

  lemma {:induction false} SkipGap(gap: string, t: string)
    requires Blank(gap)
    ensures SkipSpace(gap + t) == SkipSpace(t)
    ensures t != [] && Ends(t) ==> Ends(gap + t)
  {
    if gap == [] {
      assert gap + t == t;
    } else {
      SkipGap(gap[1..], t);
      assert (gap + t)[1..] == gap[1..] + t;
    }
  }

  lemma {:induction false} DigitsEndFollowed(n: string, after: string, i: nat)
    requires i <= |n| && Ends(after)
    ensures DigitsEnd(n + after, i) == DigitsEnd(n, i)
    decreases |n| - i
  {
    if i < |n| && IsDigit(n[i]) {
      DigitsEndFollowed(n, after, i + 1);
    }
  }

  lemma PartsFollowed(n: string, after: string, i: nat)
    requires i <= |n| && Ends(after)
    ensures IntegerEnd(n, i).Some? ==> IntegerEnd(n + after, i) == IntegerEnd(n, i)
    ensures FractionEnd(n, i).Some? ==> FractionEnd(n + after, i) == FractionEnd(n, i)
    ensures ExponentEnd(n, i).Some? ==> ExponentEnd(n + after, i) == ExponentEnd(n, i)
  {
    if i < |n| {
      DigitsEndFollowed(n, after, i + 1);
      if i + 1 < |n| {
        DigitsEndFollowed(n, after, i + 2);
      }
    }
  }

  lemma NumberFollowed(n: string, after: string)
    requires NumberEnd(n) == Some(|n|) && Ends(after)
    ensures NumberEnd(n + after) == Some(|n|)
    ensures IsDigit(n[0]) || n[0] == '-'
  {
    var s := if n[0] == '-' then 1 else 0;
    PartsFollowed(n, after, s);
    var i := IntegerEnd(n, s).value;
    PartsFollowed(n, after, i);
    PartsFollowed(n, after, FractionEnd(n, i).value);
  }

  // ---------- the round trip: values ----------

  /** Every number in it is spelled as a number. */
  predicate Spelled(v: Value) {
    match v
    case Number(digits) => NumberEnd(digits) == Some(|digits|)
    case List(items) => forall i :: 0 <= i < |items| ==> Spelled(items[i])
    case Object(members) => forall i :: 0 <= i < |members| ==> Spelled(members[i].value)
    case _ => true
  }

  /** t starts a value: no space, and no bracket that closes an empty list or object. */
  predicate Starts(t: string) {
    t != [] && SkipSpace(t) == t && t[0] != ']' && t[0] != '}'
  }

  lemma ScanPrintedPlain(v: Value, gap: string, after: string)
    requires (v.Null? || v.Bool? || v.Number?) && Spelled(v) && Ends(after)
    ensures Starts(PrintValue(v, gap, after)) && ScanValue(PrintValue(v, gap, after)) == Scanned(v, after)
  {
    var t := PrintValue(v, gap, after);
    match v {
      case Null => assert t[..4] == "null" && t[4..] == after;
      case Bool(true) => assert t[..4] == "true" && t[4..] == after;
      case Bool(false) => assert t[..5] == "false" && t[5..] == after;
      case Number(digits) =>
        NumberFollowed(digits, after);
        assert t[0] == digits[0] && t[..|digits|] == digits && t[|digits|..] == after;
    }
  }

  /** t is a gap and then something that starts a value. */
  predicate StartsAfterGap(t: string) {
    Starts(SkipSpace(t))
  }

  lemma ScanBracketed(body: string, v: Value, after: string)
    requires v.List? && v.items != [] && StartsAfterGap(body) && ScanItems(body) == Scanned(v.items, after)
    ensures ScanValue(['['] + body) == Scanned(v, after)
  {
    assert (['['] + body)[1..] == body;
  }

  lemma ScanBraced(body: string, v: Value, after: string)
    requires v.Object? && v.members != [] && StartsAfterGap(body) && ScanMembers(body) == Scanned(v.members, after)
    ensures ScanValue(['{'] + body) == Scanned(v, after)
  {
    assert (['{'] + body)[1..] == body;
  }

  lemma ScanEmpty(gap: string, after: string)
    requires Blank(gap)
    ensures ScanValue(['['] + (gap + ([']'] + after))) == Scanned(List([]), after)
    ensures ScanValue(['{'] + (gap + (['}'] + after))) == Scanned(Object([]), after)
  {
    SkipGap(gap, [']'] + after);
    SkipGap(gap, ['}'] + after);
    assert (['['] + (gap + ([']'] + after)))[1..] == gap + ([']'] + after) && ([']'] + after)[1..] == after;
    assert (['{'] + (gap + (['}'] + after)))[1..] == gap + (['}'] + after) && (['}'] + after)[1..] == after;
  }

  lemma {:induction false} ScanPrintedValue(v: Value, gap: string, after: string)
    requires Spelled(v) && Blank(gap) && Ends(after)
    ensures Starts(PrintValue(v, gap, after)) && ScanValue(PrintValue(v, gap, after)) == Scanned(v, after)
    decreases v
  {
    match v {
      case Text(s) => ScanQuote(s, after);
      case List(items) =>
        if items == [] {
          ScanEmpty(gap, after);
        } else {
          ScanPrintedItems(items, gap, after);
          ScanBracketed(PrintItems(items, gap, after), v, after);
        }
      case Object(members) =>
        if members == [] {
          ScanEmpty(gap, after);
        } else {
          ScanPrintedMembers(members, gap, after);
          ScanBraced(PrintMembers(members, gap, after), v, after);
        }
      case _ => ScanPrintedPlain(v, gap, after);
    }
  }

  /** t is a value, and after a gap a separator and more values, or the closing bracket. */
  lemma ScanItemsStep(t: string, gap: string, v: Value, u: string, items: seq<Value>, rest: string)
    requires Blank(gap) && ScanValue(SkipSpace(t)) == Scanned(v, gap + ([','] + u))
    requires ScanItems(u) == Scanned(items, rest)
    ensures ScanItems(t) == Scanned([v] + items, rest)
  {
    SkipGap(gap, [','] + u);
    assert ([','] + u)[1..] == u;
  }

  lemma ScanLastItem(t: string, gap: string, v: Value, rest: string)
    requires Blank(gap) && ScanValue(SkipSpace(t)) == Scanned(v, gap + ([']'] + rest))
    ensures ScanItems(t) == Scanned([v], rest)
  {
    SkipGap(gap, [']'] + rest);
    assert ([']'] + rest)[1..] == rest;
  }

  lemma {:induction false} ScanPrintedItems(items: seq<Value>, gap: string, after: string)
    requires items != [] && Blank(gap) && forall i :: 0 <= i < |items| ==> Spelled(items[i])
    ensures StartsAfterGap(PrintItems(items, gap, after))
    ensures ScanItems(PrintItems(items, gap, after)) == Scanned(items, after)
    decreases items
  {
    if |items| == 1 {
      SkipGap(gap, [']'] + after);
      ScanPrintedValue(items[0], gap, gap + ([']'] + after));
      SkipGap(gap, PrintValue(items[0], gap, gap + ([']'] + after)));
      ScanLastItem(PrintItems(items, gap, after), gap, items[0], after);
      assert items == [items[0]];
    } else {
      var u := PrintItems(items[1..], gap, after);
      SkipGap(gap, [','] + u);
      ScanPrintedValue(items[0], gap, gap + ([','] + u));
      SkipGap(gap, PrintValue(items[0], gap, gap + ([','] + u)));
      ScanPrintedItems(items[1..], gap, after);
      var t := gap + PrintValue(items[0], gap, gap + ([','] + u));
      ScanItemsStep(t, gap, items[0], u, items[1..], after);
      assert PrintItems(items, gap, after) == t && [items[0]] + items[1..] == items;
    }
  }

  lemma ScanMemberParts(t: string, gap: string, m: Member, body: string, after: string)
    requires Blank(gap) && ScanQuoted(SkipSpace(t)) == Scanned(m.name, gap + ([':'] + (gap + body)))
    requires Starts(body) && ScanValue(body) == Scanned(m.value, after)
    ensures ScanMember(t) == Scanned(m, after)
  {
    SkipGap(gap, [':'] + (gap + body));
    SkipGap(gap, body);
    assert ([':'] + (gap + body))[1..] == gap + body;
  }

  lemma {:induction false} ScanPrintedMember(m: Member, gap: string, after: string)
    requires Spelled(m.value) && Blank(gap) && Ends(after)
    ensures StartsAfterGap(PrintMember(m, gap, after))
    ensures ScanMember(PrintMember(m, gap, after)) == Scanned(m, after)
    decreases m
  {
    var body := PrintValue(m.value, gap, after);
    var tail := gap + ([':'] + (gap + body));
    ScanQuote(m.name, tail);
    SkipGap(gap, Quote(m.name, tail));
    ScanPrintedValue(m.value, gap, after);
    ScanMemberParts(PrintMember(m, gap, after), gap, m, body, after);
  }

  lemma ScanMembersStep(t: string, gap: string, m: Member, u: string, members: seq<Member>, rest: string)
    requires Blank(gap) && ScanMember(t) == Scanned(m, gap + ([','] + u)) && ScanMembers(u) == Scanned(members, rest)
    ensures ScanMembers(t) == Scanned([m] + members, rest)
  {
    SkipGap(gap, [','] + u);
    assert ([','] + u)[1..] == u;
  }

  lemma ScanLastMember(t: string, gap: string, m: Member, rest: string)
    requires Blank(gap) && ScanMember(t) == Scanned(m, gap + (['}'] + rest))
    ensures ScanMembers(t) == Scanned([m], rest)
  {
    SkipGap(gap, ['}'] + rest);
    assert (['}'] + rest)[1..] == rest;
  }

  lemma {:induction false} ScanPrintedMembers(members: seq<Member>, gap: string, after: string)
    requires members != [] && Blank(gap) && forall i :: 0 <= i < |members| ==> Spelled(members[i].value)
    ensures StartsAfterGap(PrintMembers(members, gap, after))
    ensures ScanMembers(PrintMembers(members, gap, after)) == Scanned(members, after)
    decreases members
  {
    if |members| == 1 {
      SkipGap(gap, ['}'] + after);
      ScanPrintedMember(members[0], gap, gap + (['}'] + after));
      ScanLastMember(PrintMembers(members, gap, after), gap, members[0], after);
      assert members == [members[0]];
    } else {
      var u := PrintMembers(members[1..], gap, after);
      SkipGap(gap, [','] + u);
      ScanPrintedMember(members[0], gap, gap + ([','] + u));
      ScanPrintedMembers(members[1..], gap, after);
      var t := PrintMember(members[0], gap, gap + ([','] + u));
      ScanMembersStep(t, gap, members[0], u, members[1..], after);
      assert PrintMembers(members, gap, after) == t && [members[0]] + members[1..] == members;
    }
  }

  /** Every JSON value is recovered from its printed form, whatever its texts, its nesting and the space in between. */
  lemma RoundTrip(v: Value, gap: string)
    requires Spelled(v) && Blank(gap)
    ensures Parse(PrintSpaced(v, gap)) == Some(v)
  {
    assert Ends(gap);
    ScanPrintedValue(v, gap, gap);
    SkipGap(gap, PrintValue(v, gap, gap));
    SkipGap(gap, []);
    assert gap + [] == gap;
  }
}
