/** Backtracking, leftmost-first matching for patterns whose repetitions are greedy and over single characters. */
module Regex {
  import opened Wrappers

  datatype Class = AnyButNewline | Dash | LowerLetter | Digit | Period | Colon | NotColon

  predicate In(c: Class, x: char) {
    match c
    case AnyButNewline => x != '\n'
    case Dash => x == '-'
    case LowerLetter => 'a' <= x <= 'z'
    case Digit => '0' <= x <= '9'
    case Period => x == '.'
    case Colon => x == ':'
    case NotColon => x != ':'
  }

  /** One character, at most one, any number, at least one. */
  datatype Atom = One(c: Class) | Opt(c: Class) | Star(c: Class) | Plus(c: Class)

  predicate At(s: string, i: nat, c: Class) {
    i < |s| && In(c, s[i])
  }

  /** The first way in priority order to match the atoms at i: the position after each atom. */
  function Match(atoms: seq<Atom>, s: string, i: nat): (r: Option<seq<nat>>)
    requires i <= |s|
    ensures r.Some? ==> |r.value| == |atoms|
    decreases |atoms|, |s| - i
  {
    if atoms == [] then Some([])
    else
      var c := atoms[0].c;
      match atoms[0]
      case One(_) => if At(s, i, c) then Then(i + 1, Match(atoms[1..], s, i + 1)) else None
      case Opt(_) =>
        var taken := if At(s, i, c) then Then(i + 1, Match(atoms[1..], s, i + 1)) else None;
        if taken.Some? then taken else Then(i, Match(atoms[1..], s, i))
      case Star(_) =>
        var longer := if At(s, i, c) then Match(atoms, s, i + 1) else None;
        if longer.Some? then longer else Then(i, Match(atoms[1..], s, i))
      case Plus(_) => if At(s, i, c) then Match([Star(c)] + atoms[1..], s, i + 1) else None
  }

  function Then(end: nat, rest: Option<seq<nat>>): Option<seq<nat>> {
    match rest
    case None => None
    case Some(ends) => Some([end] + ends)
  }

  /** The leftmost match at or after i: where it starts, and the position after each atom. */
  function Find(atoms: seq<Atom>, s: string, i: nat): (r: Option<(nat, seq<nat>)>)
    requires i <= |s|
    ensures r.Some? ==> i <= r.value.0 <= |s| && Match(atoms, s, r.value.0) == Some(r.value.1)
    decreases |s| - i
  {
    match Match(atoms, s, i)
    case Some(ends) => Some((i, ends))
    case None => if i < |s| then Find(atoms, s, i + 1) else None
  }

  /** The end of the longest stretch of class c from i on. */
  function StretchEnd(c: Class, s: string, i: nat): (e: nat)
    requires i <= |s|
    ensures i <= e <= |s|
    ensures forall j :: i <= j < e ==> In(c, s[j])
    ensures !At(s, e, c)
    decreases |s| - i
  {
    if At(s, i, c) then StretchEnd(c, s, i + 1) else i
  }

  lemma {:induction false} StretchEndIs(c: Class, s: string, i: nat, e: nat)
    requires i <= e <= |s| && (forall j :: i <= j < e ==> In(c, s[j])) && !At(s, e, c)
    ensures StretchEnd(c, s, i) == e
    decreases e - i
  {
    if i < e {
      StretchEndIs(c, s, i + 1, e);
    }
  }

  /** A greedy repetition ends at the last place of its stretch from which the rest matches. */
  lemma {:induction false} GreedyStar(c: Class, rest: seq<Atom>, s: string, i: nat)
    requires i <= |s|
    ensures match Match([Star(c)] + rest, s, i)
            case None => forall j :: i <= j <= StretchEnd(c, s, i) ==> Match(rest, s, j).None?
            case Some(ends) =>
              && i <= ends[0] <= StretchEnd(c, s, i) && Match(rest, s, ends[0]) == Some(ends[1..])
              && forall j :: ends[0] < j <= StretchEnd(c, s, i) ==> Match(rest, s, j).None?
    decreases |s| - i
  {
    var atoms := [Star(c)] + rest;
    assert atoms[1..] == rest;
    if At(s, i, c) {
      GreedyStar(c, rest, s, i + 1);
    }
  }

  /** The same for at least one character. */
  lemma GreedyPlus(c: Class, rest: seq<Atom>, s: string, i: nat)
    requires i <= |s|
    ensures match Match([Plus(c)] + rest, s, i)
            case None => forall j :: i < j <= StretchEnd(c, s, i) ==> Match(rest, s, j).None?
            case Some(ends) =>
              && i < ends[0] <= StretchEnd(c, s, i) && Match(rest, s, ends[0]) == Some(ends[1..])
              && forall j :: ends[0] < j <= StretchEnd(c, s, i) ==> Match(rest, s, j).None?
  {
    assert ([Plus(c)] + rest)[1..] == rest;
    if At(s, i, c) {
      GreedyStar(c, rest, s, i + 1);
    }
  }

  lemma MatchOne(c: Class, rest: seq<Atom>, s: string, i: nat)
    requires i <= |s|
    ensures Match([One(c)] + rest, s, i)
            == if At(s, i, c) then Then(i + 1, Match(rest, s, i + 1)) else None
  {
    assert ([One(c)] + rest)[1..] == rest;
  }

  lemma MatchOpt(c: Class, rest: seq<Atom>, s: string, i: nat)
    requires i <= |s|
    ensures Match([Opt(c)] + rest, s, i)
            == if At(s, i, c) && Match(rest, s, i + 1).Some? then Then(i + 1, Match(rest, s, i + 1))
               else Then(i, Match(rest, s, i))
  {
    assert ([Opt(c)] + rest)[1..] == rest;
  }
}
