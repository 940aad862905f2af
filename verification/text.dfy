/** The few string operations of Go's `strings` package that the broker relies on. */
module Text {

  predicate OccursAt<T(==)>(s: seq<T>, t: seq<T>, i: nat) {
    i + |t| <= |s| && s[i..i + |t|] == t
  }

  /** strings.Contains */
  predicate Contains<T(==)>(s: seq<T>, t: seq<T>) {
    exists i | 0 <= i <= |s| :: OccursAt(s, t, i)
  }

  /** strings.HasPrefix */
  predicate HasPrefix(s: string, p: string) {
    p <= s
  }

  /** strings.Split for a one-character separator */
  function Split(s: string, c: char): (fields: seq<string>)
    ensures fields != []
  {
    if s == [] then [[]]
    else
      var rest := Split(s[1..], c);
      if s[0] == c then [[]] + rest else [[s[0]] + rest[0]] + rest[1..]
  }

  /** strings.Join for a one-character separator */
  function Join(fields: seq<string>, c: char): string {
    if fields == [] then []
    else if |fields| == 1 then fields[0]
    else fields[0] + [c] + Join(fields[1..], c)
  }

  function Count(s: string, c: char): nat {
    if s == [] then 0 else (if s[0] == c then 1 else 0) + Count(s[1..], c)
  }

  lemma {:induction false} SplitFields(s: string, c: char)
    ensures |Split(s, c)| == Count(s, c) + 1
    ensures forall f :: f in Split(s, c) ==> c !in f
  {
    if s != [] {
      SplitFields(s[1..], c);
      var rest := Split(s[1..], c);
      assert rest[0] in rest;
    }
  }

  lemma {:induction false} JoinAfterSplit(s: string, c: char)
    ensures Join(Split(s, c), c) == s
  {
    if s != [] {
      JoinAfterSplit(s[1..], c);
      var rest := Split(s[1..], c);
      if s[0] == c {
        assert ([[]] + rest)[1..] == rest;
      } else {
        var head := [s[0]] + rest[0];
        assert ([head] + rest[1..])[1..] == rest[1..];
      }
    }
  }

  /** A separator-free text stays one field when more text follows it. */
  lemma {:induction false} SplitStep(a: string, c: char, b: string)
    requires c !in a
    ensures Split(a, c) == [a]
    ensures Split(a + [c] + b, c) == [a] + Split(b, c)
  {
    if a == [] {
      assert a + [c] + b == [c] + b;
      assert ([c] + b)[1..] == b;
    } else {
      SplitStep(a[1..], c, b);
      assert (a + [c] + b)[1..] == a[1..] + [c] + b;
      assert [a[0]] + a[1..] == a;
    }
  }

  lemma {:induction false} SplitAfterJoin(fields: seq<string>, c: char)
    requires fields != []
    requires forall f :: f in fields ==> c !in f
    ensures Split(Join(fields, c), c) == fields
  {
    assert fields[0] in fields;
    if |fields| == 1 {
      SplitStep(fields[0], c, []);
    } else {
      SplitAfterJoin(fields[1..], c);
      SplitStep(fields[0], c, Join(fields[1..], c));
      assert [fields[0]] + fields[1..] == fields;
    }
  }

  /** unicode.IsSpace: the Unicode White_Space characters */
  predicate IsSpace(c: char) {
    || '\t' <= c <= '\r' || c == ' '
    || c == '\U{0085}' || c == '\U{00A0}' || c == '\U{1680}'
    || '\U{2000}' <= c <= '\U{200A}'
    || c == '\U{2028}' || c == '\U{2029}' || c == '\U{202F}' || c == '\U{205F}' || c == '\U{3000}'
  }

  /** strings.TrimSpace */
  function TrimSpace(s: string): string {
    if s == [] then s
    else if IsSpace(s[0]) then TrimSpace(s[1..])
    else if IsSpace(s[|s| - 1]) then TrimSpace(s[..|s| - 1])
    else s
  }

  /** strings.ToLower, exact on every character whose lower case is ASCII. */
  function ToLower(s: string): string {
    seq(|s|, i requires 0 <= i < |s| => LowerChar(s[i]))
  }

  function LowerChar(c: char): char {
    if 'A' <= c <= 'Z' then c + 32 as char
    else if c == '\U{0130}' then 'i'
    else if c == '\U{212A}' then 'k'
    else c
  }

  /** strings.Replace(s, old, replacement, -1) for a non-empty `old` */
  function ReplaceAll(s: string, pattern: string, replacement: string): string
    requires pattern != []
  {
    if s == [] then []
    else if pattern <= s then replacement + ReplaceAll(s[|pattern|..], pattern, replacement)
    else [s[0]] + ReplaceAll(s[1..], pattern, replacement)
  }
}
