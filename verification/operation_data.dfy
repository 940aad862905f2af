/**
  broker/broker.go and broker/utils.go: the operation data, the only state carried from an asynchronous operation
  to its later polls. It travels as a JSON text, filled in and read back the way Go's encoding/json does it.
*/
module OperationData {
  import opened Wrappers
  import opened Json
  import Strings = Text

  datatype OperationData = OperationData(kind: string, recipeID: string, whitelistRecipeIDs: seq<string>)

  function Texts(ids: seq<string>): seq<Value> {
    seq(|ids|, i requires 0 <= i < |ids| => Text(ids[i]))
  }

  function Members(data: OperationData): seq<Member> {
    [Member("type", Text(data.kind)),
     Member("recipe_id", Text(data.recipeID)),
     Member("whitelist_recipe_ids", List(Texts(data.whitelistRecipeIDs)))]
  }

  /** makeOperationData. Marshalling strings and lists of strings never fails. */
  function Encode(data: OperationData): string {
    Print(Object(Members(data)))
  }

  // ---------- reading it back ----------

  /** Names of members are compared up to case, and up to the two other characters that fold to a letter. */
  function FoldChar(c: char): char {
    if 'A' <= c <= 'Z' then c + 32 as char
    else if c == '\U{017F}' then 's'
    else if c == '\U{212A}' then 'k'
    else c
  }

  function Fold(name: string): string {
    seq(|name|, i requires 0 <= i < |name| => FoldChar(name[i]))
  }

  /** The texts of a list; a null leaves what its slot held before. None if an item is neither. */
  function Fill(items: seq<Value>, slots: seq<string>): Option<seq<string>> {
    if items == [] then Some([])
    else
      var held := if slots == [] then "" else slots[0];
      match Fill(items[1..], if slots == [] then [] else slots[1..])
      case None => None
      case Some(rest) =>
        match items[0]
        case Text(s) => Some([s] + rest)
        case Null => Some([held] + rest)
        case _ => None
  }

  /** A list that is read again reuses the slots of the one before, unless that was emptied. */
  function SlotsAfter(ids: seq<string>, slots: seq<string>): seq<string> {
    if ids == [] || |slots| <= |ids| then ids else ids + slots[|ids|..]
  }

  /**
    json.Unmarshal of an object's members: later members win, null leaves a text and empties the list, a value of
    another kind is an error, and members of other names are ignored.
  */
  function Assemble(data: OperationData, slots: seq<string>, members: seq<Member>): Option<OperationData>
    decreases |members|
  {
    if members == [] then Some(data)
    else
      var Member(name, value) := members[0];
      var rest := members[1..];
      if Fold(name) == "type" then
        match value {
          case Text(s) => Assemble(data.(kind := s), slots, rest)
          case Null => Assemble(data, slots, rest)
          case _ => None
        }
      else if Fold(name) == "recipe_id" then
        match value {
          case Text(s) => Assemble(data.(recipeID := s), slots, rest)
          case Null => Assemble(data, slots, rest)
          case _ => None
        }
      else if Fold(name) == "whitelist_recipe_ids" then
        match value {
          case List(items) =>
            (match Fill(items, slots)
             case Some(ids) => Assemble(data.(whitelistRecipeIDs := ids), SlotsAfter(ids, slots), rest)
             case None => None)
          case Null => Assemble(data.(whitelistRecipeIDs := []), [], rest)
          case _ => None
        }
      else Assemble(data, slots, rest)
  }

  const BLANK := OperationData("", "", [])

  /** A document that is just null leaves everything blank. */
  function Decode(json: string): Option<OperationData> {
    match Parse(json)
    case Some(Object(members)) => Assemble(BLANK, [], members)
    case Some(Null) => Some(BLANK)
    case _ => None
  }

  // ---------- the round trip ----------

  lemma {:induction false} FillTexts(ids: seq<string>, slots: seq<string>)
    ensures Fill(Texts(ids), slots) == Some(ids)
  {
    if ids != [] {
      FillTexts(ids[1..], if slots == [] then [] else slots[1..]);
      assert Texts(ids)[1..] == Texts(ids[1..]);
      assert [ids[0]] + ids[1..] == ids;
    }
  }

  /** name is this lower-case word, letter by letter, as encoding/json compares them. */
  predicate Spells(name: string, word: string) {
    |name| == |word| && forall i :: 0 <= i < |name| ==>
      || name[i] == word[i]
      || ('a' <= word[i] <= 'z' && name[i] as int + 32 == word[i] as int)
      || (word[i] == 's' && name[i] == '\U{017F}')
      || (word[i] == 'k' && name[i] == '\U{212A}')
  }

  lemma FoldExactly(name: string, word: string)
    requires forall i :: 0 <= i < |word| ==> '_' <= word[i] <= 'z'
    ensures Fold(name) == word <==> Spells(name, word)
  {
    if Fold(name) == word {
      assert forall i :: 0 <= i < |name| ==> Fold(name)[i] == FoldChar(name[i]);
    }
  }

  lemma LettersFolded(name: string)
    requires forall c :: c in name ==> '_' <= c <= 'z'
    ensures Fold(name) == name
  {
    forall i | 0 <= i < |name|
      ensures FoldChar(name[i]) == name[i]
    {
      assert name[i] in name;
    }
  }

  lemma NamesFolded()
    ensures Fold("type") == "type" && Fold("recipe_id") == "recipe_id"
    ensures Fold("whitelist_recipe_ids") == "whitelist_recipe_ids"
  {
    LettersFolded("type");
    LettersFolded("recipe_id");
    LettersFolded("whitelist_recipe_ids");
  }

  lemma AssembleThree(a: Member, b: Member, c: Member, data: OperationData)
    requires Fold(a.name) == "type" && a.value == Text(data.kind)
    requires Fold(b.name) == "recipe_id" && b.value == Text(data.recipeID)
    requires Fold(c.name) == "whitelist_recipe_ids" && c.value == List(Texts(data.whitelistRecipeIDs))
    ensures Assemble(BLANK, [], [a, b, c]) == Some(data)
  {
    FillTexts(data.whitelistRecipeIDs, []);
    var d1 := BLANK.(kind := data.kind);
    var d2 := d1.(recipeID := data.recipeID);
    assert [a, b, c][1..] == [b, c] && [b, c][1..] == [c] && [c][1..] == [];
    assert Assemble(BLANK, [], [a, b, c]) == Assemble(d1, [], [b, c]);
    assert Assemble(d1, [], [b, c]) == Assemble(d2, [], [c]);
    assert [c][0] == c;
    assert Assemble(d2, [], [c]) == Assemble(data, SlotsAfter(data.whitelistRecipeIDs, []), []);
  }

  /** Decoding inverts encoding, whatever space is put between the tokens on the way. */
  lemma SpacedRoundTrip(data: OperationData, gap: string)
    requires Blank(gap)
    ensures Decode(PrintSpaced(Object(Members(data)), gap)) == Some(data)
  {
    Json.RoundTrip(Object(Members(data)), gap);
    NamesFolded();
    AssembleThree(Members(data)[0], Members(data)[1], Members(data)[2], data);
  }

  /** Decoding inverts encoding, for every Unicode text in every field and every list, the empty one included. */
  lemma RoundTrip(data: OperationData)
    ensures Decode(Encode(data)) == Some(data)
  {
    SpacedRoundTrip(data, []);
  }

  // ---------- other members ----------

  predicate IsField(name: string) {
    Fold(name) == "type" || Fold(name) == "recipe_id" || Fold(name) == "whitelist_recipe_ids"
  }

  /** The members that have a field to go to. */
  function Fields(members: seq<Member>): seq<Member> {
    if members == [] then []
    else (if IsField(members[0].name) then [members[0]] else []) + Fields(members[1..])
  }

  /** Members of other names do not matter, whatever their values are. */
  lemma {:induction false} OthersIgnored(data: OperationData, slots: seq<string>, members: seq<Member>)
    ensures Assemble(data, slots, members) == Assemble(data, slots, Fields(members))
    decreases |members|
  {
    if members != [] {
      var m, rest := members[0], members[1..];
      if IsField(m.name) {
        assert Fields(members)[0] == m && Fields(members)[1..] == Fields(rest);
        forall d, s
          ensures Assemble(d, s, rest) == Assemble(d, s, Fields(rest))
        {
          OthersIgnored(d, s, rest);
        }
      } else {
        OthersIgnored(data, slots, rest);
        assert Fields(members) == Fields(rest);
      }
    }
  }

  lemma {:induction false} ListOnlyFromItsMember(data: OperationData, slots: seq<string>, members: seq<Member>)
    requires forall m :: m in members ==> Fold(m.name) != "whitelist_recipe_ids"
    requires Assemble(data, slots, members).Some?
    ensures Assemble(data, slots, members).value.whitelistRecipeIDs == data.whitelistRecipeIDs
    decreases |members|
  {
    if members != [] {
      var m := members[0];
      assert m in members;
      var data' :=
        if m.value.Text? && Fold(m.name) == "type" then data.(kind := m.value.text)
        else if m.value.Text? && Fold(m.name) == "recipe_id" then data.(recipeID := m.value.text)
        else data;
      assert Assemble(data, slots, members) == Assemble(data', slots, members[1..]);
      ListOnlyFromItsMember(data', slots, members[1..]);
    }
  }

  /** Any accepted text without a whitelist member, in any spelling, decodes to no whitelist recipe to poll. */
  lemma AbsentListIsEmpty(json: string)
    requires Decode(json).Some?
    requires Parse(json).value.Object? ==>
               forall m :: m in Parse(json).value.members ==> Fold(m.name) != "whitelist_recipe_ids"
    ensures Decode(json).value.whitelistRecipeIDs == []
  {
    match Parse(json) {
      case Some(Object(members)) => ListOnlyFromItsMember(BLANK, [], members);
      case _ =>
    }
  }

  // ---------- what decoding makes of a document ----------

  predicate FieldAt(members: seq<Member>, field: string, i: nat) {
    i < |members| && Fold(members[i].name) == field
  }

  /** Its value is of the kind that its field takes, or null, or it names no field. */
  predicate Fitting(m: Member) {
    && (Fold(m.name) == "type" || Fold(m.name) == "recipe_id" ==> m.value.Text? || m.value.Null?)
    && (Fold(m.name) == "whitelist_recipe_ids" ==>
          m.value.Null? || (m.value.List? && forall v :: v in m.value.items ==> v.Text? || v.Null?))
  }

  /** The text of the field's last member that has one; without any, `before`. */
  ghost predicate LastText(members: seq<Member>, field: string, before: string, text: string) {
    || (exists i: nat :: TextAt(members, field, i, text))
    || (text == before && forall i: nat :: FieldAt(members, field, i) ==> !members[i].value.Text?)
  }

  ghost predicate TextAt(members: seq<Member>, field: string, i: nat, text: string) {
    && FieldAt(members, field, i) && members[i].value == Text(text)
    && forall j: nat :: FieldAt(members, field, j) && members[j].value.Text? ==> j <= i
  }

  /** The list of the last whitelist member: empty for null; nulls in it are empty texts if it is the only one. */
  ghost predicate LastList(members: seq<Member>, before: seq<string>, slots: seq<string>, ids: seq<string>) {
    || (exists i: nat :: ListAt(members, i, slots, ids))
    || (ids == before && forall i: nat :: !FieldAt(members, "whitelist_recipe_ids", i))
  }

  ghost predicate ListAt(members: seq<Member>, i: nat, slots: seq<string>, ids: seq<string>) {
    && FieldAt(members, "whitelist_recipe_ids", i)
    && (forall j: nat :: FieldAt(members, "whitelist_recipe_ids", j) ==> j <= i)
    && match members[i].value
       case Null => ids == []
       case List(items) => Filled(items, ids, slots == [] && OnlyAt(members, i))
       case _ => false
  }

  ghost predicate OnlyAt(members: seq<Member>, i: nat) {
    forall j: nat :: FieldAt(members, "whitelist_recipe_ids", j) ==> j == i
  }

  predicate Filled(items: seq<Value>, ids: seq<string>, blank: bool) {
    && |ids| == |items|
    && forall k :: 0 <= k < |items| ==>
         (items[k].Text? && ids[k] == items[k].text) || (items[k].Null? && (blank ==> ids[k] == ""))
  }

  lemma {:induction false} FillExactly(items: seq<Value>, slots: seq<string>)
    ensures match Fill(items, slots)
            case None => exists v :: v in items && !v.Text? && !v.Null?
            case Some(ids) =>
              Filled(items, ids, slots == []) && forall v :: v in items ==> v.Text? || v.Null?
  {
    if items != [] {
      FillExactly(items[1..], if slots == [] then [] else slots[1..]);
      assert items == [items[0]] + items[1..];
    }
  }

  lemma OneMore(m: Member, members: seq<Member>, field: string)
    ensures forall j: nat :: FieldAt([m] + members, field, j) ==>
              if j == 0 then Fold(m.name) == field
              else FieldAt(members, field, j - 1) && ([m] + members)[j] == members[j - 1]
    ensures forall j: nat :: FieldAt(members, field, j) ==>
              FieldAt([m] + members, field, j + 1) && ([m] + members)[j + 1] == members[j]
  {
  }

  lemma TextLater(m: Member, members: seq<Member>, field: string, before: string, text: string)
    requires LastText(members, field, if Fold(m.name) == field && m.value.Text? then m.value.text else before, text)
    ensures LastText([m] + members, field, before, text)
  {
    var all := [m] + members;
    OneMore(m, members, field);
    if i: nat :| TextAt(members, field, i, text) {
      assert TextAt(all, field, i + 1, text);
    } else if Fold(m.name) == field && m.value.Text? {
      assert TextAt(all, field, 0, text);
    }
  }

  lemma ListLater(m: Member, members: seq<Member>, slots: seq<string>, before: seq<string>, slots': seq<string>,
                  ids: seq<string>)
    requires Fold(m.name) == "whitelist_recipe_ids" && LastList(members, before, slots', ids)
    requires match m.value
             case Null => before == []
             case List(items) => Filled(items, before, slots == [])
             case _ => false
    ensures exists i: nat :: ListAt([m] + members, i, slots, ids)
  {
    var all := [m] + members;
    OneMore(m, members, "whitelist_recipe_ids");
    assert FieldAt(all, "whitelist_recipe_ids", 0);
    if i: nat :| ListAt(members, i, slots', ids) {
      assert ListAt(all, i + 1, slots, ids);
    } else {
      assert ListAt(all, 0, slots, ids);
    }
  }

  lemma ListUntouched(m: Member, members: seq<Member>, before: seq<string>, slots: seq<string>, ids: seq<string>)
    requires Fold(m.name) != "whitelist_recipe_ids" && LastList(members, before, slots, ids)
    ensures LastList([m] + members, before, slots, ids)
  {
    var all := [m] + members;
    OneMore(m, members, "whitelist_recipe_ids");
    if i: nat :| ListAt(members, i, slots, ids) {
      assert OnlyAt(all, i + 1) ==> OnlyAt(members, i);
      assert ListAt(all, i + 1, slots, ids);
    }
  }

  /** Where one member leads, given where the rest leads from what it leaves behind. */
  lemma OneMember(data: OperationData, slots: seq<string>, m: Member)
    ensures match Assemble(data, slots, [m])
            case None => !Fitting(m)
            case Some(data') =>
              && Fitting(m)
              && data'.kind == (if Fold(m.name) == "type" && m.value.Text? then m.value.text else data.kind)
              && data'.recipeID
                 == (if Fold(m.name) == "recipe_id" && m.value.Text? then m.value.text else data.recipeID)
              && if Fold(m.name) != "whitelist_recipe_ids" then
                   data'.whitelistRecipeIDs == data.whitelistRecipeIDs
                 else
                   match m.value
                   case Null => data'.whitelistRecipeIDs == []
                   case List(items) => Filled(items, data'.whitelistRecipeIDs, slots == [])
                   case _ => false
  {
    assert [m][1..] == [];
    assert forall d, s :: Assemble(d, s, []) == Some(d);
    if Fold(m.name) == "whitelist_recipe_ids" && m.value.List? {
      FillExactly(m.value.items, slots);
      match Fill(m.value.items, slots) {
        case None =>
          var v :| v in m.value.items && !v.Text? && !v.Null?;
          assert !Fitting(m);
        case Some(ids) =>
          assert Assemble(data, slots, [m])
                 == Assemble(data.(whitelistRecipeIDs := ids), SlotsAfter(ids, slots), []);
      }
    } else if Fold(m.name) == "type" && m.value.Text? {
      assert Assemble(data, slots, [m]) == Assemble(data.(kind := m.value.text), slots, []);
    } else if Fold(m.name) == "recipe_id" && m.value.Text? {
      assert Assemble(data, slots, [m]) == Assemble(data.(recipeID := m.value.text), slots, []);
    } else if !IsField(m.name) {
      assert Assemble(data, slots, [m]) == Assemble(data, slots, []);
    } else if m.value.Null? {
      assert Assemble(data, slots, [m]).Some?;
    }
  }

  /** The slots left behind by one member. */
  function SlotsOf(slots: seq<string>, m: Member): seq<string> {
    if Fold(m.name) != "whitelist_recipe_ids" then slots
    else
      match m.value
      case List(items) =>
        (match Fill(items, slots) case Some(ids) => SlotsAfter(ids, slots) case None => [])
      case _ => []
  }

  lemma AssembleStep(data: OperationData, slots: seq<string>, members: seq<Member>)
    requires members != []
    ensures Assemble(data, slots, members)
            == match Assemble(data, slots, [members[0]])
               case None => None
               case Some(data') => Assemble(data', SlotsOf(slots, members[0]), members[1..])
  {
    assert [members[0]][1..] == [];
  }

  /**
    json.Unmarshal into operation data, member by member: it succeeds iff every member that names a field, up to case,
    has a value of that field's kind or null, and then the last one of each field decides.
  */
  lemma {:induction false} AssembledExactly(data: OperationData, slots: seq<string>, members: seq<Member>)
    ensures match Assemble(data, slots, members)
            case None => exists m :: m in members && !Fitting(m)
            case Some(result) =>
              && (forall m :: m in members ==> Fitting(m))
              && LastText(members, "type", data.kind, result.kind)
              && LastText(members, "recipe_id", data.recipeID, result.recipeID)
              && LastList(members, data.whitelistRecipeIDs, slots, result.whitelistRecipeIDs)
    decreases |members|
  {
    if members != [] {
      var m, rest := members[0], members[1..];
      assert members == [m] + rest;
      AssembleStep(data, slots, members);
      OneMember(data, slots, m);
      match Assemble(data, slots, [m]) {
        case None =>
        case Some(data') =>
          AssembledExactly(data', SlotsOf(slots, m), rest);
          if Assemble(data, slots, members).Some? {
            var result := Assemble(data, slots, members).value;
            TextLater(m, rest, "type", data.kind, result.kind);
            TextLater(m, rest, "recipe_id", data.recipeID, result.recipeID);
            if Fold(m.name) == "whitelist_recipe_ids" {
              ListLater(m, rest, slots, data'.whitelistRecipeIDs, SlotsOf(slots, m), result.whitelistRecipeIDs);
            } else {
              ListUntouched(m, rest, data.whitelistRecipeIDs, slots, result.whitelistRecipeIDs);
            }
          }
      }
    }
  }

  /** What Decode makes of a text: only objects and null are accepted, and each field is its last member's. */
  lemma DecodedExactly(json: string)
    ensures match Parse(json)
            case Some(Null) => Decode(json) == Some(OperationData("", "", []))
            case Some(Object(members)) =>
              (match Decode(json)
               case None => exists m :: m in members && !Fitting(m)
               case Some(data) =>
                 && (forall m :: m in members ==> Fitting(m))
                 && LastText(members, "type", "", data.kind)
                 && LastText(members, "recipe_id", "", data.recipeID)
                 && LastList(members, [], [], data.whitelistRecipeIDs))
            case _ => Decode(json) == None
  {
    match Parse(json) {
      case Some(Object(members)) => AssembledExactly(BLANK, [], members);
      case _ =>
    }
  }

  // ---------- what the text looks like ----------

  /** No character of s needs escaping. */
  predicate Verbatim(s: string) {
    forall c :: c in s ==> EscapeChar(c) == [c]
  }

  lemma {:induction false} EscapeVerbatim(s: string, after: string)
    requires Verbatim(s)
    ensures Escape(s, after) == s + after
  {
    if s != [] {
      EscapeVerbatim(s[1..], after);
      assert s[0] in s;
      assert [s[0]] + (s[1..] + after) == s + after;
    }
  }

  function InQuotes(s: string): string {
    ['"'] + s + ['"']
  }

  function Quoted(items: seq<string>): seq<string> {
    seq(|items|, i requires 0 <= i < |items| => InQuotes(items[i]))
  }

  function Labelled(name: string, value: string): string {
    InQuotes(name) + [':'] + value
  }

  lemma QuoteVerbatim(s: string, after: string)
    requires Verbatim(s)
    ensures Quote(s, after) == InQuotes(s) + after
  {
    EscapeVerbatim(s, ['"'] + after);
  }

  lemma JoinStep(first: string, rest: seq<string>, after: string)
    requires rest != []
    ensures Strings.Join([first] + rest, ',') + after == first + ([','] + (Strings.Join(rest, ',') + after))
  {
    assert ([first] + rest)[1..] == rest;
  }

  lemma LastItemVerbatim(s: string, after: string)
    requires Verbatim(s)
    ensures PrintItems(Texts([s]), [], after) == InQuotes(s) + ([']'] + after)
  {
    UnspacedItems(Texts([s]), after);
    QuoteVerbatim(s, [']'] + after);
  }

  lemma ItemVerbatim(items: seq<string>, after: string)
    requires |items| > 1 && Verbatim(items[0])
    ensures PrintItems(Texts(items), [], after)
            == InQuotes(items[0]) + ([','] + PrintItems(Texts(items[1..]), [], after))
  {
    UnspacedItems(Texts(items), after);
    assert Texts(items)[1..] == Texts(items[1..]);
    QuoteVerbatim(items[0], [','] + PrintItems(Texts(items[1..]), [], after));
  }

  lemma {:induction false} ItemsVerbatim(items: seq<string>, after: string)
    requires items != [] && forall s :: s in items ==> Verbatim(s)
    ensures PrintItems(Texts(items), [], after) == Strings.Join(Quoted(items), ',') + ([']'] + after)
  {
    assert items[0] in items;
    if |items| == 1 {
      assert items == [items[0]];
      LastItemVerbatim(items[0], after);
    } else {
      ItemVerbatim(items, after);
      ItemsVerbatim(items[1..], after);
      assert Quoted(items) == [InQuotes(items[0])] + Quoted(items[1..]);
      JoinStep(InQuotes(items[0]), Quoted(items[1..]), [']'] + after);
    }
  }

  /** The text written for recipe IDs that need no escaping. */
  lemma EncodedForm(data: OperationData)
    requires Verbatim(data.kind) && Verbatim(data.recipeID)
    requires forall id :: id in data.whitelistRecipeIDs ==> Verbatim(id)
    ensures var list := InBrackets(Strings.Join(Quoted(data.whitelistRecipeIDs), ','));
            Encode(data)
            == ['{'] + (Labelled("type", InQuotes(data.kind)) + [','] + (Labelled("recipe_id", InQuotes(data.recipeID))
               + [','] + (Labelled("whitelist_recipe_ids", list) + ['}'])))
  {
    NamesVerbatim();
    var list := PrintMember(Members(data)[2], [], ['}']);
    var id := PrintMember(Members(data)[1], [], [','] + list);
    PrintThree(Members(data)[0], Members(data)[1], Members(data)[2]);
    ListMember("whitelist_recipe_ids", data.whitelistRecipeIDs, ['}']);
    TextMember("recipe_id", data.recipeID, ',', list);
    TextMember("type", data.kind, ',', id);
  }

  lemma NamesVerbatim()
    ensures Verbatim("type") && Verbatim("recipe_id") && Verbatim("whitelist_recipe_ids")
  {
    LettersVerbatim("type");
    LettersVerbatim("recipe_id");
    LettersVerbatim("whitelist_recipe_ids");
  }

  lemma LettersVerbatim(s: string)
    requires forall c :: c in s ==> '_' <= c <= 'z'
    ensures Verbatim(s)
  {
  }

  lemma TextMember(name: string, text: string, separator: char, rest: string)
    requires Verbatim(name) && Verbatim(text)
    ensures PrintMember(Member(name, Text(text)), [], [separator] + rest)
            == Labelled(name, InQuotes(text)) + [separator] + rest
  {
    UnspacedMember(Member(name, Text(text)), [separator] + rest);
    QuoteVerbatim(name, [':'] + Quote(text, [separator] + rest));
    QuoteVerbatim(text, [separator] + rest);
  }

  function InBrackets(s: string): string {
    ['['] + s + [']']
  }

  lemma ListVerbatim(items: seq<string>, after: string)
    requires forall s :: s in items ==> Verbatim(s)
    ensures PrintValue(List(Texts(items)), [], after) == InBrackets(Strings.Join(Quoted(items), ',')) + after
  {
    if items == [] {
      assert Strings.Join(Quoted(items), ',') == [];
    } else {
      ItemsVerbatim(items, after);
    }
  }

  lemma ListMember(name: string, items: seq<string>, after: string)
    requires Verbatim(name) && forall s :: s in items ==> Verbatim(s)
    ensures PrintMember(Member(name, List(Texts(items))), [], after)
            == Labelled(name, InBrackets(Strings.Join(Quoted(items), ','))) + after
  {
    var list := InBrackets(Strings.Join(Quoted(items), ','));
    UnspacedMember(Member(name, List(Texts(items))), after);
    ListVerbatim(items, after);
    QuoteVerbatim(name, [':'] + (list + after));
    Labels(name, list, after);
  }

  lemma Labels(name: string, value: string, after: string)
    ensures InQuotes(name) + ([':'] + (value + after)) == Labelled(name, value) + after
  {
  }

  lemma PrintThree(a: Member, b: Member, c: Member)
    ensures Print(Object([a, b, c]))
            == ['{'] + PrintMember(a, [], [','] + PrintMember(b, [], [','] + PrintMember(c, [], ['}'])))
  {
    assert [a, b, c][1..] == [b, c] && [b, c][1..] == [c] && [c][0] == c;
    assert ['}'] + [] == ['}'];
    UnspacedMembers([c], []);
    UnspacedMembers([b, c], []);
    UnspacedMembers([a, b, c], []);
    Unspaced(PrintValue(Object([a, b, c]), [], []));
  }
}
