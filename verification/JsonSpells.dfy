/** The reader takes nothing but spellings: whatever it reads, its text spells. */
module JsonSpells {
  import opened Types
  import opened Json
  import opened JsonReads

  lemma {:induction false} SpaceSplit(s: string) returns (w: string)
    ensures AllSpace(w) && s == w + SkipSpace(s)
  {
    w := "";
    if s != "" && Space(s[0]) {
      var v := SpaceSplit(s[1..]);
      w := [s[0]] + v;
      assert s == [s[0]] + s[1..];
    }
  }

  lemma LetterSpelled(s: string) returns (l: Letter)
    requires ReadLetter(s).Some?
    ensures var r := ReadLetter(s).value;
      LetterOk(l) && LetterOf(l) == r.0 && s == LetterText(l) + s[r.1..]
  {
    if s[0] != '\\' {
      l := Raw(s[0]);
    } else if s[1] != 'u' {
      l := Short(s[1]);
    } else {
      hide CodeUnit;
      var hex := s[2..6];
      UnitOfFour(s[2..]);
      assert s[2..][..4] == hex;
      if !HighSurrogate(CodeUnit(hex).value) {
        l := Coded(hex);
        assert s == "\\u" + hex + s[6..];
      } else {
        UnitOfFour(s[8..]);
        assert s[8..][..4] == s[8..12];
        l := Paired(hex, s[8..12]);
        assert s == "\\u" + hex + "\\u" + s[8..12] + s[12..];
      }
    }
  }

  lemma UnitOfFour(s: string)
    requires |s| >= 4
    ensures CodeUnit(s) == CodeUnit(s[..4])
  {
  }

  lemma {:induction false} StringSpelled(s: string) returns (letters: seq<Letter>)
    requires ReadString(s).Some?
    ensures LettersOk(letters) && LettersOf(letters) == ReadString(s).value.0
    ensures s == LettersText(letters) + "\"" + ReadString(s).value.1
    decreases |s|
  {
    if s[0] == '"' {
      letters := [];
    } else {
      hide ReadLetter, LetterText, LetterOf, LetterOk;
      var l := LetterSpelled(s);
      var tail := s[ReadLetter(s).value.1..];
      var others := StringSpelled(tail);
      letters := [l] + others;
      assert letters[1..] == others;
      var rest := ReadString(tail).value.1;
      Regroup(LettersText(others), "\"", rest);
      Regroup(LetterText(l), LettersText(others), "\"" + rest);
      Regroup(LettersText(letters), "\"", rest);
    }
  }

  lemma QuotedSpelled(s: string) returns (letters: seq<Letter>)
    requires s != "" && s[0] == '"' && ReadString(s[1..]).Some?
    ensures LettersOk(letters) && LettersOf(letters) == ReadString(s[1..]).value.0
    ensures s == QuotedText(letters) + ReadString(s[1..]).value.1
  {
    hide ReadString, LettersText, LettersOf, LettersOk;
    letters := StringSpelled(s[1..]);
    assert s == "\"" + s[1..];
    var rest := ReadString(s[1..]).value.1;
    Regroup("\"", LettersText(letters) + "\"", rest);
    Regroup("\"", LettersText(letters), "\"");
  }

  lemma {:induction false} WordSpelled(s: string)
    requires s != "" && !Space(s[0]) && s[0] != '"' && s[0] != '[' && s[0] != '{' && ReadValue(s).Some?
    ensures var r := ReadValue(s).value; WordOk(r.0) && s == WordText(r.0) + r.1
  {
    assert SkipSpace(s) == s;
    var r := ReadValue(s).value;
    assert s == s[..|s| - |r.1|] + r.1;
  }

  /** What a value's text is: its leading space, a spelling of it, and the rest. */
  lemma {:induction false} ValueSpelled(s: string) returns (lead: string, sp: Spelling)
    requires ReadValue(s).Some?
    ensures var r := ReadValue(s).value;
      AllSpace(lead) && Ok(sp) && Meaning(sp) == r.0 && s == lead + TextOf(sp) + r.1
    decreases |s|, 1
  {
    hide ReadItems, ReadMembers, SkipSpace, LettersOf, LettersText, ElementsOk, FieldsOk;
    lead := SpaceSplit(s);
    var t := SkipSpace(s);
    Skipped(s);
    if t[0] == '"' {
      TextCase(t);
      var letters := QuotedSpelled(t);
      sp := Quoted(letters);
    } else if t[0] == '[' {
      sp := ListSpelled(t);
    } else if t[0] == '{' {
      sp := RecordSpelled(t);
    } else {
      WordSpelled(t);
      sp := Plain(ReadValue(t).value.0);
    }
  }

  lemma TextCase(t: string)
    requires t != "" && t[0] == '"' && SkipSpace(t) == t && ReadValue(t).Some?
    ensures ReadString(t[1..]).Some? && ReadValue(t).value == (Text(ReadString(t[1..]).value.0), ReadString(t[1..]).value.1)
  {
  }

  lemma ListCase(t: string)
    requires t != "" && t[0] == '[' && SkipSpace(t) == t && ReadValue(t).Some?
    ensures var u := SkipSpace(t[1..]);
      if u != "" && u[0] == ']' then ReadValue(t).value == (Array([]), u[1..])
      else ReadItems(u).Some? && ReadValue(t).value == (Array(ReadItems(u).value.0), ReadItems(u).value.1)
  {
  }

  lemma RecordCase(t: string)
    requires t != "" && t[0] == '{' && SkipSpace(t) == t && ReadValue(t).Some?
    ensures var u := SkipSpace(t[1..]);
      if u != "" && u[0] == '}' then ReadValue(t).value == (Object([]), u[1..])
      else
        && ReadMembers(u).Some? && Distinct(ReadMembers(u).value.0)
        && ReadValue(t).value == (Object(ReadMembers(u).value.0), ReadMembers(u).value.1)
  {
  }

  lemma ItemsCase(s: string)
    requires ReadItems(s).Some?
    ensures ReadValue(s).Some?
    ensures var v, r := ReadValue(s).value, ReadItems(s).value;
      var t := SkipSpace(v.1);
      && |t| < |s| && t != ""
      && (if t[0] == ',' then ReadItems(t[1..]).Some? && r == ([v.0] + ReadItems(t[1..]).value.0, ReadItems(t[1..]).value.1)
          else t[0] == ']' && r == ([v.0], t[1..]))
  {
  }

  lemma MembersCase(s: string)
    requires ReadMembers(s).Some?
    ensures ReadName(s).Some? && ReadValue(ReadName(s).value.1).Some?
    ensures var v, r := ReadValue(ReadName(s).value.1).value, ReadMembers(s).value;
      var m, t := Member(ReadName(s).value.0, v.0), SkipSpace(v.1);
      && |t| < |s| && t != "" && |ReadName(s).value.1| < |s|
      && (if t[0] == ',' then
            ReadMembers(t[1..]).Some? && r == ([m] + ReadMembers(t[1..]).value.0, ReadMembers(t[1..]).value.1)
          else t[0] == '}' && r == ([m], t[1..]))
  {
  }

  lemma {:induction false} Skipped(s: string)
    ensures var t := SkipSpace(s);
      |t| <= |s| && SkipSpace(t) == t && (t != "" ==> !Space(t[0])) && ReadValue(t) == ReadValue(s)
  {
    SkipTwice(s);
  }

  lemma Bracketed(open: string, inner: string, inside: string, close: string, rest: string)
    ensures open + inner + (inside + close + rest) == open + (inner + inside) + close + rest
  {
    Regroup(inside, close, rest);
    Regroup(inner, inside, close + rest);
    Regroup(open, inner, inside + close + rest);
    Regroup(open, inner + inside, close + rest);
    Regroup(open + (inner + inside), close, rest);
  }

  /** What comes first, a comma, and the rest of a list up to its end. */
  lemma Joined(first: string, others: string, close: string, rest: string)
    ensures first + ("," + (others + close + rest)) == first + ("," + others) + close + rest
  {
    Bracketed(first, ",", others, close, rest);
    Regroup(first, ",", others + close + rest);
  }

  lemma {:induction false} ListSpelled(t: string) returns (sp: Spelling)
    requires t != "" && t[0] == '[' && SkipSpace(t) == t && ReadValue(t).Some?
    ensures var r := ReadValue(t).value; Ok(sp) && Meaning(sp) == r.0 && t == TextOf(sp) + r.1
    decreases |t|, 0
  {
    hide ReadValue, ReadItems, SkipSpace;
    ListCase(t);
    var inner := SpaceSplit(t[1..]);
    var u := SkipSpace(t[1..]);
    assert t == "[" + inner + u;
    if u != "" && u[0] == ']' {
      sp := Listed([], inner);
      assert u == "]" + u[1..];
    } else {
      var es := ItemsSpelled(u);
      sp := LedList(inner, es);
      Bracketed("[", inner, ElementsText(es), "]", ReadItems(u).value.1);
    }
  }

  /** Space before the first element belongs to it. */
  lemma LedList(inner: string, es: seq<Element>) returns (sp: Spelling)
    requires AllSpace(inner) && es != [] && ElementsOk(es)
    ensures Ok(sp) && Meaning(sp) == Array(ItemsOf(es)) && TextOf(sp) == "[" + (inner + ElementsText(es)) + "]"
  {
    var led := [es[0].(lead := inner + es[0].lead)] + es[1..];
    assert led[1..] == es[1..];
    LedElements(inner, es, led);
    hide ElementsOk, ElementsText, ItemsOf;
    sp := Listed(led, "");
  }

  lemma LedElements(inner: string, es: seq<Element>, led: seq<Element>)
    requires AllSpace(inner) && es != [] && ElementsOk(es)
    requires led == [es[0].(lead := inner + es[0].lead)] + es[1..] && led[1..] == es[1..]
    ensures ElementsOk(led) && ItemsOf(led) == ItemsOf(es) && ElementsText(led) == inner + ElementsText(es)
  {
    hide Ok, Meaning, TextOf;
    assert ElementText(led[0]) == inner + ElementText(es[0]);
    Regroup(inner, ElementText(es[0]), if |es| == 1 then "" else "," + ElementsText(es[1..]));
    hide ElementText;
  }

  lemma EmptyRecord(inner: string)
    requires AllSpace(inner)
    ensures Ok(Recorded([], inner)) && Meaning(Recorded([], inner)) == Object([])
  {
  }

  lemma LedRecord(inner: string, fs: seq<Field>) returns (sp: Spelling)
    requires AllSpace(inner) && fs != [] && FieldsOk(fs) && Distinct(MembersOf(fs))
    ensures Ok(sp) && Meaning(sp) == Object(MembersOf(fs)) && TextOf(sp) == "{" + (inner + FieldsText(fs)) + "}"
  {
    var led := [fs[0].(lead := inner + fs[0].lead)] + fs[1..];
    assert led[1..] == fs[1..];
    LedFields(inner, fs, led);
    DistinctNames(led);
    hide FieldsOk, FieldsText, MembersOf, LettersOf, Distinct;
    sp := Recorded(led, "");
  }

  lemma LedField(inner: string, f: Field)
    ensures FieldText(f.(lead := inner + f.lead)) == inner + FieldText(f)
  {
    hide QuotedText, TextOf;
    Regroup(inner, f.lead, QuotedText(f.name));
    Regroup(inner, f.lead + QuotedText(f.name), f.mid);
    Regroup(inner, f.lead + QuotedText(f.name) + f.mid, ":");
    Regroup(inner, f.lead + QuotedText(f.name) + f.mid + ":", ElementText(f.element));
  }

  lemma LedFields(inner: string, fs: seq<Field>, led: seq<Field>)
    requires AllSpace(inner) && fs != [] && FieldsOk(fs)
    requires led == [fs[0].(lead := inner + fs[0].lead)] + fs[1..] && led[1..] == fs[1..]
    ensures FieldsOk(led) && MembersOf(led) == MembersOf(fs) && FieldsText(led) == inner + FieldsText(fs)
  {
    hide Ok, Meaning, TextOf, LettersOf, LettersText, QuotedText;
    LedField(inner, fs[0]);
    Regroup(inner, FieldText(fs[0]), if |fs| == 1 then "" else "," + FieldsText(fs[1..]));
    hide FieldText;
  }

  lemma {:induction false} ElementSpelled(s: string) returns (e: Element)
    requires ReadValue(s).Some?
    ensures var r := ReadValue(s).value;
      && AllSpace(e.lead) && Ok(e.spelling) && AllSpace(e.trail) && Meaning(e.spelling) == r.0
      && s == ElementText(e) + SkipSpace(r.1)
    decreases |s|, 2
  {
    hide ReadValue, SkipSpace, Ok, Meaning, TextOf;
    var lead, sp := ValueSpelled(s);
    var trail := SpaceSplit(ReadValue(s).value.1);
    e := Element(lead, sp, trail);
  }

  lemma {:induction false} ItemsSpelled(s: string) returns (es: seq<Element>)
    requires ReadItems(s).Some?
    ensures var r := ReadItems(s).value;
      es != [] && ElementsOk(es) && ItemsOf(es) == r.0 && s == ElementsText(es) + "]" + r.1
    decreases |s|, 3
  {
    hide ReadValue, ReadItems, SkipSpace, Ok, Meaning, TextOf;
    ItemsCase(s);
    var e := ElementSpelled(s);
    var t := SkipSpace(ReadValue(s).value.1);
    es := [e];
    assert ItemsOf(es[1..]) == [];
    assert t == [t[0]] + t[1..];
    if t[0] == ',' {
      var others := ItemsSpelled(t[1..]);
      es := [e] + others;
      assert es[1..] == others;
      Joined(ElementText(e), ElementsText(others), "]", ReadItems(t[1..]).value.1);
    } else {
      Regroup(ElementText(e), "]", t[1..]);
    }
  }

  lemma {:induction false} RecordSpelled(t: string) returns (sp: Spelling)
    requires t != "" && t[0] == '{' && SkipSpace(t) == t && ReadValue(t).Some?
    ensures var r := ReadValue(t).value; Ok(sp) && Meaning(sp) == r.0 && t == TextOf(sp) + r.1
    decreases |t|, 0
  {
    hide ReadValue, ReadMembers, SkipSpace, FieldsText, FieldsOk, LettersOf, Distinct;
    RecordCase(t);
    var inner := SpaceSplit(t[1..]);
    var u := SkipSpace(t[1..]);
    assert t == "{" + inner + u;
    if u != "" && u[0] == '}' {
      sp := Recorded([], inner);
      EmptyRecord(inner);
      assert u == "}" + u[1..];
    } else {
      var fs := MembersSpelled(u);
      sp := LedRecord(inner, fs);
      Bracketed("{", inner, FieldsText(fs), "}", ReadMembers(u).value.1);
    }
  }

  lemma NameSpelled(s: string) returns (lead: string, letters: seq<Letter>, mid: string)
    requires ReadName(s).Some?
    ensures var r := ReadName(s).value;
      && AllSpace(lead) && LettersOk(letters) && AllSpace(mid) && LettersOf(letters) == r.0
      && s == lead + QuotedText(letters) + mid + ":" + r.1
  {
    hide ReadString, LettersText, LettersOf, LettersOk, SkipSpace, QuotedText;
    lead := SpaceSplit(s);
    var t := SkipSpace(s);
    letters := QuotedSpelled(t);
    var after := ReadString(t[1..]).value.1;
    mid := SpaceSplit(after);
    var u := SkipSpace(after);
    assert u == ":" + u[1..];
    var quoted := QuotedText(letters);
    Regroup(mid, ":", u[1..]);
    Regroup(quoted, mid, u);
    Regroup(lead, quoted, mid + u);
    Regroup(lead + quoted, mid, u);
    Regroup(lead + quoted + mid, ":", u[1..]);
  }

  lemma {:induction false} MembersSpelled(s: string) returns (fs: seq<Field>)
    requires ReadMembers(s).Some?
    ensures var r := ReadMembers(s).value;
      fs != [] && FieldsOk(fs) && MembersOf(fs) == r.0 && s == FieldsText(fs) + "}" + r.1
    decreases |s|, 3
  {
    hide ReadValue, ReadMembers, ReadName, SkipSpace, Ok, Meaning, TextOf, LettersText, LettersOf;
    MembersCase(s);
    var lead, letters, mid := NameSpelled(s);
    var after := ReadName(s).value.1;
    var e := ElementSpelled(after);
    var f := Field(lead, letters, mid, e);
    var t := SkipSpace(ReadValue(after).value.1);
    fs := [f];
    assert MembersOf(fs[1..]) == [];
    assert t == [t[0]] + t[1..];
    Regroup(lead + QuotedText(letters) + mid + ":", ElementText(e), t);
    assert s == FieldText(f) + t;
    hide FieldText, QuotedText;
    if t[0] == ',' {
      var others := MembersSpelled(t[1..]);
      fs := [f] + others;
      assert fs[1..] == others;
      Joined(FieldText(f), FieldsText(others), "}", ReadMembers(t[1..]).value.1);
    } else {
      Regroup(FieldText(f), "}", t[1..]);
    }
  }
}
