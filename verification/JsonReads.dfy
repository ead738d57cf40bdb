/** The reader takes every spelling of a value for that value. */
module JsonReads {
  import opened Types
  import opened Json

  /** Nothing that could belong to a number still running. */
  predicate Delimited(rest: string) {
    rest == "" || !NumberChar(rest[0])
  }

  lemma Regroup(a: string, b: string, c: string)
    ensures a + b + c == a + (b + c)
  {
  }

  lemma {:induction false} SkipsSpace(w: string, t: string)
    requires AllSpace(w)
    ensures SkipSpace(w + t) == SkipSpace(t)
  {
    if w == "" {
      assert w + t == t;
    } else {
      assert (w + t)[1..] == w[1..] + t;
      SkipsSpace(w[1..], t);
    }
  }

  // ---------- strings ----------

  lemma LetterReads(l: Letter, rest: string)
    requires LetterOk(l)
    ensures LetterText(l) + rest != "" && (LetterText(l) + rest)[0] != '"'
    ensures ReadLetter(LetterText(l) + rest) == Some((LetterOf(l), |LetterText(l)|))
  {
    var s := LetterText(l) + rest;
    match l
    case Raw(c) =>
    case Short(sign) =>
    case Coded(hex) =>
      hide CodeUnit;
      assert s[2..][..4] == hex;
      UnitOfPrefix(hex, s[2..]);
    case Paired(high, low) =>
      PairReads(high, low, rest);
  }

  lemma PairReads(high: string, low: string, rest: string)
    requires LetterOk(Paired(high, low))
    ensures var l := Paired(high, low); ReadLetter(LetterText(l) + rest) == Some((LetterOf(l), |LetterText(l)|))
  {
    hide CodeUnit;
    var s := LetterText(Paired(high, low)) + rest;
    assert s[2..][..4] == high && s[6] == '\\' && s[7] == 'u' && s[8..][..4] == low;
    UnitOfPrefix(high, s[2..]);
    UnitOfPrefix(low, s[8..]);
  }

  lemma UnitOfPrefix(hex: string, s: string)
    requires |hex| == 4 && |s| >= 4 && s[..4] == hex
    ensures CodeUnit(s) == CodeUnit(hex)
  {
    assert s[0] == hex[0] && s[1] == hex[1] && s[2] == hex[2] && s[3] == hex[3];
  }

  lemma {:induction false} StringReads(letters: seq<Letter>, rest: string)
    requires LettersOk(letters)
    ensures ReadString(LettersText(letters) + "\"" + rest) == Some((LettersOf(letters), rest))
  {
    if letters == [] {
      assert LettersText(letters) + "\"" + rest == "\"" + rest;
    } else {
      var tail := LettersText(letters[1..]) + "\"" + rest;
      assert LettersText(letters) + "\"" + rest == LetterText(letters[0]) + tail;
      LetterReads(letters[0], tail);
      assert (LetterText(letters[0]) + tail)[|LetterText(letters[0])|..] == tail;
      StringReads(letters[1..], rest);
    }
  }

  lemma QuotedReads(letters: seq<Letter>, rest: string)
    requires LettersOk(letters)
    ensures QuotedText(letters) + rest != "" && (QuotedText(letters) + rest)[0] == '"'
    ensures ReadString((QuotedText(letters) + rest)[1..]) == Some((LettersOf(letters), rest))
  {
    assert (QuotedText(letters) + rest)[1..] == LettersText(letters) + "\"" + rest;
    StringReads(letters, rest);
  }

  // ---------- words and numbers ----------

  lemma {:induction false} RunOf(literal: string, rest: string)
    requires (forall i :: 0 <= i < |literal| ==> NumberChar(literal[i])) && Delimited(rest)
    ensures NumberRun(literal + rest) == |literal|
  {
    if literal == "" {
      assert literal + rest == rest;
    } else {
      assert (literal + rest)[1..] == literal[1..] + rest;
      RunOf(literal[1..], rest);
    }
  }

  lemma NumberStarts(literal: string)
    requires ValidNumber(literal)
    ensures literal != "" && NumberChar(literal[0]) && !Space(literal[0])
  {
  }

  lemma NumberReads(literal: string, rest: string)
    requires ValidNumber(literal) && Delimited(rest)
    ensures ReadValue(literal + rest) == Some((Number(literal), rest))
    ensures literal != "" && NumberChar(literal[0])
  {
    var s := literal + rest;
    NumberStarts(literal);
    RunOf(literal, rest);
    hide ValidNumber, NumberRun;
    assert s[..|literal|] == literal && s[|literal|..] == rest;
    assert SkipSpace(s) == s && s[0] == literal[0];
  }

  lemma WordReads(v: Value, rest: string)
    requires WordOk(v) && Delimited(rest)
    ensures ReadValue(WordText(v) + rest) == Some((v, rest))
    ensures WordText(v) != "" && !Space(WordText(v)[0]) && WordText(v)[0] != ']' && WordText(v)[0] != '}'
  {
    var s := WordText(v) + rest;
    if v.Number? {
      NumberReads(v.literal, rest);
    } else {
      assert s[|WordText(v)|..] == rest;
      assert SkipSpace(s) == s;
    }
  }

  // ---------- arrays and objects ----------

  /** Every spelling starts with what tells its kind. */
  lemma Starts(sp: Spelling)
    requires Ok(sp)
    ensures TextOf(sp) != "" && !Space(TextOf(sp)[0]) && TextOf(sp)[0] != ']' && TextOf(sp)[0] != '}'
  {
    if sp.Plain? {
      WordReads(sp.value, "");
    }
  }

  lemma SpacedStarts(e: Element, rest: string)
    requires AllSpace(e.lead) && Ok(e.spelling)
    ensures SkipSpace(ElementText(e) + rest) == TextOf(e.spelling) + e.trail + rest
  {
    var t := TextOf(e.spelling) + e.trail + rest;
    assert ElementText(e) + rest == e.lead + t;
    SkipsSpace(e.lead, t);
    Starts(e.spelling);
  }

  /** The text after an element's value: its trailing space, then what delimits it. */
  lemma {:induction false} ElementReads(e: Element, rest: string)
    requires AllSpace(e.lead) && Ok(e.spelling) && AllSpace(e.trail)
    requires rest != "" && !Space(rest[0]) && Delimited(rest)
    ensures ReadValue(ElementText(e) + rest).Some?
    ensures ReadValue(ElementText(e) + rest).value.0 == Meaning(e.spelling)
    ensures SkipSpace(ReadValue(ElementText(e) + rest).value.1) == rest
    decreases e, 1
  {
    hide ReadValue, TextOf, Ok, Meaning, SkipSpace;
    var after := e.trail + rest;
    assert Delimited(after) by { if e.trail != "" { assert after[0] == e.trail[0] && Space(e.trail[0]); } }
    SpelledReads(e.spelling, after);
    SpacedStarts(e, rest);
    Starts(e.spelling);
    assert TextOf(e.spelling) + e.trail + rest == TextOf(e.spelling) + after;
    SkipStops(TextOf(e.spelling) + after);
    SkipIrrelevant(ElementText(e) + rest, TextOf(e.spelling) + after);
    SkipsSpace(e.trail, rest);
    SkipStops(rest);
  }

  lemma SkipStops(t: string)
    requires t != "" && !Space(t[0])
    ensures SkipSpace(t) == t
  {
  }

  lemma SkipIrrelevant(s: string, t: string)
    requires SkipSpace(s) == SkipSpace(t)
    ensures ReadValue(s) == ReadValue(t)
  {
  }

  lemma {:induction false} ItemsRead(es: seq<Element>, rest: string)
    requires es != [] && ElementsOk(es)
    ensures ReadItems(ElementsText(es) + "]" + rest) == Some((ItemsOf(es), rest))
    decreases es
  {
    hide ReadValue, ReadItems, SkipSpace, Ok, Meaning, TextOf;
    var first := es[0];
    var s := ElementsText(es) + "]" + rest;
    if |es| == 1 {
      var tail := "]" + rest;
      assert s == ElementText(first) + tail;
      ElementReads(first, tail);
      assert es[1..] == [];
      assert ItemsOf(es) == [Meaning(first.spelling)];
      ReadsLastItem(s, rest);
    } else {
      var tail := ElementsText(es[1..]) + "]" + rest;
      assert s == ElementText(first) + ("," + tail);
      ElementReads(first, "," + tail);
      assert ("," + tail)[1..] == tail;
      ItemsRead(es[1..], rest);
      ReadsItem(s, tail);
    }
  }

  lemma ReadsLastItem(s: string, rest: string)
    requires ReadValue(s).Some? && SkipSpace(ReadValue(s).value.1) == "]" + rest
    ensures ReadItems(s) == Some(([ReadValue(s).value.0], rest))
  {
    assert ("]" + rest)[1..] == rest;
  }

  lemma ReadsItem(s: string, tail: string)
    requires ReadValue(s).Some? && SkipSpace(ReadValue(s).value.1) == "," + tail && ReadItems(tail).Some?
    ensures ReadItems(s) == Some(([ReadValue(s).value.0] + ReadItems(tail).value.0, ReadItems(tail).value.1))
  {
    assert ("," + tail)[1..] == tail;
  }

  lemma NameReads(f: Field, rest: string)
    requires AllSpace(f.lead) && LettersOk(f.name) && AllSpace(f.mid)
    ensures ReadName(f.lead + QuotedText(f.name) + f.mid + ":" + rest) == Some((LettersOf(f.name), rest))
  {
    var colon := ":" + rest;
    var after := f.mid + colon;
    var quoted := QuotedText(f.name) + after;
    assert f.lead + QuotedText(f.name) + f.mid + ":" + rest == f.lead + quoted;
    SkipsSpace(f.lead, quoted);
    QuotedReads(f.name, after);
    assert SkipSpace(quoted) == quoted;
    SkipsSpace(f.mid, colon);
    assert SkipSpace(colon) == colon;
  }

  function FieldTail(fs: seq<Field>, rest: string): string
    requires fs != []
  {
    if |fs| == 1 then "}" + rest else "," + (FieldsText(fs[1..]) + "}" + rest)
  }

  lemma FieldsTextSplit(fs: seq<Field>, rest: string)
    requires fs != []
    ensures FieldsText(fs) + "}" + rest ==
      fs[0].lead + QuotedText(fs[0].name) + fs[0].mid + ":" + (ElementText(fs[0].element) + FieldTail(fs, rest))
  {
  }

  lemma {:induction false} MembersRead(fs: seq<Field>, rest: string)
    requires fs != [] && FieldsOk(fs)
    ensures ReadMembers(FieldsText(fs) + "}" + rest) == Some((MembersOf(fs), rest))
    decreases fs
  {
    hide ReadValue, ReadMembers, ReadName, SkipSpace, Ok, Meaning, TextOf, LettersOf;
    var tail := FieldTail(fs, rest);
    FieldsTextSplit(fs, rest);
    NameReads(fs[0], ElementText(fs[0].element) + tail);
    ElementReads(fs[0].element, tail);
    var s := FieldsText(fs) + "}" + rest;
    if |fs| == 1 {
      assert fs[1..] == [];
      assert MembersOf(fs) == [Member(LettersOf(fs[0].name), Meaning(fs[0].element.spelling))];
      ReadsLastMember(s, ElementText(fs[0].element) + tail, rest);
    } else {
      MembersRead(fs[1..], rest);
      ReadsMember(s, ElementText(fs[0].element) + tail, FieldsText(fs[1..]) + "}" + rest);
    }
  }

  lemma ReadsLastMember(s: string, after: string, rest: string)
    requires ReadName(s).Some? && ReadName(s).value.1 == after
    requires ReadValue(after).Some? && SkipSpace(ReadValue(after).value.1) == "}" + rest
    ensures ReadMembers(s) == Some(([Member(ReadName(s).value.0, ReadValue(after).value.0)], rest))
  {
    assert ("}" + rest)[1..] == rest;
  }

  lemma ReadsMember(s: string, after: string, tail: string)
    requires ReadName(s).Some? && ReadName(s).value.1 == after
    requires ReadValue(after).Some? && SkipSpace(ReadValue(after).value.1) == "," + tail && ReadMembers(tail).Some?
    ensures ReadMembers(s) ==
      Some(([Member(ReadName(s).value.0, ReadValue(after).value.0)] + ReadMembers(tail).value.0, ReadMembers(tail).value.1))
  {
    assert ("," + tail)[1..] == tail;
  }

  lemma {:induction false} MembersOfAt(fs: seq<Field>, i: nat)
    requires FieldsOk(fs) && i < |fs|
    ensures |MembersOf(fs)| == |fs| && MembersOf(fs)[i].name == LettersOf(fs[i].name)
  {
    if i > 0 { MembersOfAt(fs[1..], i - 1); }
    else if |fs| > 1 { MembersOfAt(fs[1..], 0); }
  }

  lemma DistinctNames(fs: seq<Field>)
    requires FieldsOk(fs)
    ensures NamesDistinct(fs) <==> Distinct(MembersOf(fs))
  {
    if fs != [] { MembersOfAt(fs, 0); }
    forall i: nat | i < |fs| ensures MembersOf(fs)[i].name == LettersOf(fs[i].name) { MembersOfAt(fs, i); }
  }

  /** Where an element list starts, no closing bracket stands. */
  lemma ItemsStart(es: seq<Element>, rest: string)
    requires es != [] && ElementsOk(es)
    ensures var u := SkipSpace(ElementsText(es) + "]" + rest);
      u != "" && u[0] != ']' && ReadItems(u) == ReadItems(ElementsText(es) + "]" + rest)
  {
    var s := ElementsText(es) + "]" + rest;
    var after := s[|ElementText(es[0])|..];
    assert s == ElementText(es[0]) + after;
    SpacedStarts(es[0], after);
    Starts(es[0].spelling);
    SkipTwice(s);
    SkipIrrelevant(s, SkipSpace(s));
  }

  lemma {:induction false} SkipTwice(s: string)
    ensures var t := SkipSpace(s); SkipSpace(t) == t && (t != "" ==> !Space(t[0]))
  {
    if s != "" && Space(s[0]) { SkipTwice(s[1..]); }
  }

  lemma FieldsStart(fs: seq<Field>, rest: string)
    requires fs != [] && FieldsOk(fs)
    ensures var u := SkipSpace(FieldsText(fs) + "}" + rest);
      u != "" && u[0] != '}' && ReadMembers(u) == ReadMembers(FieldsText(fs) + "}" + rest)
  {
    hide LettersText, TextOf, Ok, FieldsText, ReadMembers;
    var s := FieldsText(fs) + "}" + rest;
    FieldsTextSplit(fs, rest);
    var quoted := s[|fs[0].lead|..];
    assert s == fs[0].lead + quoted && quoted[0] == '"';
    SkipsSpace(fs[0].lead, quoted);
    SkipTwice(s);
    SkipIrrelevantToMembers(s, SkipSpace(s));
  }

  lemma SkipIrrelevantToMembers(s: string, t: string)
    requires SkipSpace(s) == SkipSpace(t)
    ensures ReadMembers(s) == ReadMembers(t)
  {
  }

  lemma ListedReads(sp: Spelling, rest: string)
    requires sp.Listed? && Ok(sp)
    requires sp.elements != [] ==>
      ReadItems(ElementsText(sp.elements) + "]" + rest) == Some((ItemsOf(sp.elements), rest))
    ensures ReadValue(TextOf(sp) + rest) == Some((Meaning(sp), rest))
  {
    var s := TextOf(sp) + rest;
    var inside := if sp.elements == [] then sp.inner else ElementsText(sp.elements);
    assert s[1..] == inside + "]" + rest;
    assert SkipSpace(s) == s;
    if sp.elements == [] {
      assert s[1..] == sp.inner + ("]" + rest);
      SkipsSpace(sp.inner, "]" + rest);
    } else {
      ItemsStart(sp.elements, rest);
    }
  }

  lemma ReadsObject(s: string, inside: string)
    requires s != "" && s[0] == '{' && s[1..] == inside && SkipSpace(inside) != "" && SkipSpace(inside)[0] != '}'
    requires var members := ReadMembers(SkipSpace(inside)); members.Some? && Distinct(members.value.0)
    ensures var members := ReadMembers(SkipSpace(inside));
      ReadValue(s) == Some((Object(members.value.0), members.value.1))
  {
    assert SkipSpace(s) == s;
  }

  lemma EmptyObjectReads(inner: string, rest: string)
    requires AllSpace(inner)
    ensures ReadValue("{" + inner + "}" + rest) == Some((Object([]), rest))
  {
    var s := "{" + inner + "}" + rest;
    assert SkipSpace(s) == s && s[1..] == inner + ("}" + rest);
    SkipsSpace(inner, "}" + rest);
    assert ("}" + rest)[1..] == rest;
  }

  lemma RecordedReads(sp: Spelling, rest: string)
    requires sp.Recorded? && Ok(sp)
    requires sp.fields != [] ==> ReadMembers(FieldsText(sp.fields) + "}" + rest) == Some((MembersOf(sp.fields), rest))
    ensures ReadValue(TextOf(sp) + rest) == Some((Meaning(sp), rest))
  {
    hide ReadValue, ReadMembers, SkipSpace, LettersOf, FieldsText;
    DistinctNames(sp.fields);
    if sp.fields == [] {
      EmptyObjectReads(sp.inner, rest);
    } else {
      FieldsStart(sp.fields, rest);
      var s := TextOf(sp) + rest;
      assert s[1..] == FieldsText(sp.fields) + "}" + rest;
      ReadsObject(s, FieldsText(sp.fields) + "}" + rest);
    }
  }

  /** However a value is spelled, the reader reads that value, and stops where the spelling does. */
  lemma {:induction false} SpelledReads(sp: Spelling, rest: string)
    requires Ok(sp) && Delimited(rest)
    ensures ReadValue(TextOf(sp) + rest) == Some((Meaning(sp), rest))
    decreases sp, 0
  {
    match sp
    case Plain(v) => WordReads(v, rest);
    case Quoted(letters) =>
      QuotedReads(letters, rest);
      assert SkipSpace(TextOf(sp) + rest) == TextOf(sp) + rest;
    case Listed(elements, inner) =>
      if elements != [] { ItemsRead(elements, rest); }
      ListedReads(sp, rest);
    case Recorded(fields, inner) =>
      if fields != [] { MembersRead(fields, rest); }
      RecordedReads(sp, rest);
  }
}
