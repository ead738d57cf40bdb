/** The canonical form of a payload: one text for every way to write the same request. */
module Canonical {
  import opened Types
  import opened Json
  import opened JsonReads
  import opened JsonSpells

  // ---------- one way to write a value ----------

  function HexChar(n: nat): (c: char)
    requires n < 16
    ensures HexDigit(c) == Some(n) && c !in "ABCDEF"
  {
    if n < 10 then '0' + n as char else 'a' + (n - 10) as char
  }

  /** A code unit below 256, in lower-case digits. */
  function CodedByte(n: nat): (l: Letter)
    requires n < 256
    ensures LetterOk(l) && LetterOf(l) == n as char && l.Coded? && |l.hex| == 4
    ensures forall i :: 0 <= i < 4 ==> l.hex[i] !in "ABCDEF"
  {
    var hex := ['0', '0', HexChar(n / 16), HexChar(n % 16)];
    assert CodeUnit(hex) == Some(n);
    Coded(hex)
  }

  lemma SeparatorsCoded()
    ensures LetterOk(Coded("2028")) && LetterOf(Coded("2028")) == '\U{2028}'
    ensures LetterOk(Coded("2029")) && LetterOf(Coded("2029")) == '\U{2029}'
  {
    assert CodeUnit("2028") == Some(0x2028);
    assert CodeUnit("2029") == Some(0x2029);
  }

  /** Quotes, backslashes and control characters are escaped, and so are the characters HTML and scripts give a meaning. */
  function CanonicalLetter(c: char): (l: Letter)
    ensures LetterOk(l) && LetterOf(l) == c
  {
    if c == '"' then Short('"')
    else if c == '\\' then Short('\\')
    else if c == '\U{8}' then Short('b')
    else if c == '\U{C}' then Short('f')
    else if c == '\n' then Short('n')
    else if c == '\r' then Short('r')
    else if c == '\t' then Short('t')
    else if c < ' ' || c == '<' || c == '>' || c == '&' then CodedByte(c as nat)
    else if c == '\U{2028}' then SeparatorsCoded(); Coded("2028")
    else if c == '\U{2029}' then SeparatorsCoded(); Coded("2029")
    else Raw(c)
  }

  /** A key of one release must match a key of the next, so each character has its one spelling for good. */
  lemma EscapesFixed(c: char)
    ensures var text := LetterText(CanonicalLetter(c));
      && (text == [c] <==> c >= ' ' && c !in "\"\\<>&\U{2028}\U{2029}")
      && (|text| == 2 <==> c in "\"\\\U{8}\U{C}\n\r\t")
      && (|text| == 6 ==> CodeUnit(text[2..]) == Some(c as nat) && forall i :: 2 <= i < 6 ==> text[i] !in "ABCDEF")
      && (|text| == 1 || |text| == 2 || |text| == 6)
  {
    var l := CanonicalLetter(c);
    if l.Coded? {
      assert LetterText(l)[2..] == l.hex;
      SeparatorsCoded();
    }
  }

  function CanonicalLetters(text: string): (letters: seq<Letter>)
    ensures LettersOk(letters) && LettersOf(letters) == text
  {
    if text == "" then [] else
      var tail := CanonicalLetters(text[1..]);
      assert ([CanonicalLetter(text[0])] + tail)[1..] == tail;
      [CanonicalLetter(text[0])] + tail
  }

  /** What the reader makes values of: valid numbers, and no repeated member name. */
  predicate Valid(v: Value) {
    match v
    case Number(literal) => ValidNumber(literal)
    case Array(items) => forall i :: 0 <= i < |items| ==> Valid(items[i])
    case Object(members) => ValidMembers(members) && Distinct(members)
    case _ => true
  }

  predicate ValidMembers(members: seq<Member>) {
    forall i :: 0 <= i < |members| ==> Valid(members[i].value)
  }

  /** No whitespace, strings written one way, numbers as they came, members in their order. */
  function Plainly(v: Value): Spelling
    requires Valid(v)
  {
    match v
    case Text(text) => Quoted(CanonicalLetters(text))
    case Array(items) => Listed(PlainItems(items), "")
    case Object(members) => Recorded(PlainMembers(members), "")
    case _ => Plain(v)
  }

  function PlainItems(items: seq<Value>): seq<Element>
    requires forall i :: 0 <= i < |items| ==> Valid(items[i])
  {
    if items == [] then [] else [Element("", Plainly(items[0]), "")] + PlainItems(items[1..])
  }

  function PlainMembers(members: seq<Member>): seq<Field>
    requires ValidMembers(members)
  {
    if members == [] then []
    else
      var m := members[0];
      [Field("", CanonicalLetters(m.name), "", Element("", Plainly(m.value), ""))] + PlainMembers(members[1..])
  }

  lemma {:induction false} PlainlyMeans(v: Value)
    requires Valid(v)
    ensures Ok(Plainly(v)) && Meaning(Plainly(v)) == v
  {
    match v
    case Array(items) => PlainItemsMean(items);
    case Object(members) => PlainMembersMean(members); DistinctNames(PlainMembers(members));
    case _ =>
  }

  lemma {:induction false} PlainItemsMean(items: seq<Value>)
    requires forall i :: 0 <= i < |items| ==> Valid(items[i])
    ensures ElementsOk(PlainItems(items)) && ItemsOf(PlainItems(items)) == items
  {
    if items != [] {
      PlainlyMeans(items[0]);
      PlainItemsMean(items[1..]);
      assert PlainItems(items)[1..] == PlainItems(items[1..]);
    }
  }

  lemma {:induction false} PlainMembersMean(members: seq<Member>)
    requires ValidMembers(members)
    ensures FieldsOk(PlainMembers(members)) && MembersOf(PlainMembers(members)) == members
  {
    if members != [] {
      PlainlyMeans(members[0].value);
      PlainMembersMean(members[1..]);
      assert PlainMembers(members)[1..] == PlainMembers(members[1..]);
    }
  }

  function Written(v: Value): string
    requires Valid(v)
  {
    TextOf(Plainly(v))
  }

  /** The written form reads back, so no two values are written alike. */
  lemma WrittenReads(v: Value)
    requires Valid(v)
    ensures ReadValue(Written(v)) == Some((v, ""))
  {
    PlainlyMeans(v);
    SpelledReads(Plainly(v), "");
    assert Written(v) + "" == Written(v);
  }

  // ---------- no whitespace, written out ----------

  function CompactText(text: string): string {
    if text == "" then "" else LetterText(CanonicalLetter(text[0])) + CompactText(text[1..])
  }

  function Compact(v: Value): string {
    match v
    case Null => "null"
    case True => "true"
    case False => "false"
    case Number(literal) => literal
    case Text(text) => "\"" + CompactText(text) + "\""
    case Array(items) => "[" + CompactItems(items) + "]"
    case Object(members) => "{" + CompactMembers(members) + "}"
  }

  function CompactItems(items: seq<Value>): string {
    if items == [] then ""
    else Compact(items[0]) + (if |items| == 1 then "" else "," + CompactItems(items[1..]))
  }

  function CompactMembers(members: seq<Member>): string {
    if members == [] then ""
    else
      "\"" + CompactText(members[0].name) + "\":" + Compact(members[0].value)
      + (if |members| == 1 then "" else "," + CompactMembers(members[1..]))
  }

  lemma {:induction false} LettersCompact(text: string)
    ensures LettersText(CanonicalLetters(text)) == CompactText(text)
  {
    if text != "" {
      LettersCompact(text[1..]);
      assert CanonicalLetters(text)[1..] == CanonicalLetters(text[1..]);
    }
  }

  /** The canonical form of a value is its text without any whitespace, in the order the value has. */
  lemma {:induction false} WrittenIsCompact(v: Value)
    requires Valid(v)
    ensures Written(v) == Compact(v)
    decreases v
  {
    match v
    case Text(text) => LettersCompact(text);
    case Array(items) => ItemsCompact(items);
    case Object(members) => MembersCompact(members);
    case _ =>
  }

  lemma {:induction false} ItemsCompact(items: seq<Value>)
    requires forall i :: 0 <= i < |items| ==> Valid(items[i])
    ensures (if PlainItems(items) == [] then "" else ElementsText(PlainItems(items))) == CompactItems(items)
    decreases items
  {
    if items != [] {
      WrittenIsCompact(items[0]);
      ItemsCompact(items[1..]);
      assert PlainItems(items)[1..] == PlainItems(items[1..]);
      assert |items| == 1 <==> PlainItems(items[1..]) == [];
      assert ElementText(PlainItems(items)[0]) == Written(items[0]);
    }
  }

  lemma {:induction false} MembersCompact(members: seq<Member>)
    requires ValidMembers(members)
    ensures (if PlainMembers(members) == [] then "" else FieldsText(PlainMembers(members))) == CompactMembers(members)
    decreases members
  {
    if members != [] {
      WrittenIsCompact(members[0].value);
      LettersCompact(members[0].name);
      MembersCompact(members[1..]);
      assert PlainMembers(members)[1..] == PlainMembers(members[1..]);
      assert |members| == 1 <==> PlainMembers(members[1..]) == [];
      MemberCompact(members[0]);
    }
  }

  lemma MemberCompact(m: Member)
    requires Valid(m.value) && Written(m.value) == Compact(m.value)
    requires LettersText(CanonicalLetters(m.name)) == CompactText(m.name)
    ensures FieldText(Field("", CanonicalLetters(m.name), "", Element("", Plainly(m.value), "")))
      == "\"" + CompactText(m.name) + "\":" + Compact(m.value)
  {
    hide CompactText, Compact, LettersText, CanonicalLetters, Plainly, TextOf;
    var name := "\"" + CompactText(m.name);
    var quoted := QuotedText(CanonicalLetters(m.name));
    var value := ElementText(Element("", Plainly(m.value), ""));
    assert value == Written(m.value);
    assert "" + quoted == quoted && quoted + "" == quoted && "\"" + ":" == "\":";
    Regroup(name, "\"", ":");
  }

  // ---------- what is read is valid ----------

  lemma {:induction false} MeaningValid(sp: Spelling)
    requires Ok(sp)
    ensures Valid(Meaning(sp))
  {
    match sp
    case Plain(v) =>
    case Quoted(letters) =>
    case Listed(elements, _) => ItemsValid(elements);
    case Recorded(fields, _) => MembersValid(fields); DistinctNames(fields);
  }

  lemma {:induction false} ItemsValid(es: seq<Element>)
    requires ElementsOk(es)
    ensures forall i :: 0 <= i < |ItemsOf(es)| ==> Valid(ItemsOf(es)[i])
  {
    if es != [] {
      MeaningValid(es[0].spelling);
      ItemsValid(es[1..]);
    }
  }

  lemma {:induction false} MembersValid(fs: seq<Field>)
    requires FieldsOk(fs)
    ensures ValidMembers(MembersOf(fs))
  {
    if fs != [] {
      MeaningValid(fs[0].element.spelling);
      MembersValid(fs[1..]);
    }
  }

  lemma ReadValid(s: string)
    requires ReadValue(s).Some?
    ensures Valid(ReadValue(s).value.0)
  {
    var lead, sp := ValueSpelled(s);
    MeaningValid(sp);
  }

  // ---------- payloads ----------

  /** The members of a payload, in the order they were sent. None: the text is no I-JSON object. */
  function Payload(text: string): (r: Option<seq<Member>>)
    ensures r.Some? ==> ValidMembers(r.value) && Distinct(r.value)
  {
    var v := ReadValue(text);
    if v.None? || !v.value.0.Object? || SkipSpace(v.value.1) != "" then None
    else
      assert Valid(v.value.0) by { ReadValid(text); }
      Some(v.value.0.members)
  }

  predicate Before(a: string, b: string) {
    b != "" && (a == "" || a[0] < b[0] || (a[0] == b[0] && Before(a[1..], b[1..])))
  }

  /** The order of names is that of dictionaries: by the first character that differs, a name before those it begins. */
  lemma {:induction false} BeforeIsLexicographic(a: string, b: string)
    ensures Before(a, b) <==> exists k :: DiffersAt(a, b, k)
  {
    if Before(a, b) {
      if a == "" || a[0] < b[0] {
        assert DiffersAt(a, b, 0);
      } else {
        BeforeIsLexicographic(a[1..], b[1..]);
        var k :| DiffersAt(a[1..], b[1..], k);
        assert a[..k + 1] == [a[0]] + a[1..][..k] && b[..k + 1] == [b[0]] + b[1..][..k];
        assert DiffersAt(a, b, k + 1);
      }
    }
    if k :| DiffersAt(a, b, k) {
      if k > 0 {
        assert a[0] == a[..k][0] == b[..k][0] == b[0];
        assert a[1..][..k - 1] == a[..k][1..] && b[1..][..k - 1] == b[..k][1..];
        assert DiffersAt(a[1..], b[1..], k - 1);
        BeforeIsLexicographic(a[1..], b[1..]);
      }
    }
  }

  ghost predicate DiffersAt(a: string, b: string, k: int) {
    0 <= k <= |a| && k < |b| && a[..k] == b[..k] && (k == |a| || a[k] < b[k])
  }

  lemma {:induction false} BeforeTotal(a: string, b: string)
    ensures Before(a, b) || Before(b, a) || a == b
    ensures !(Before(a, b) && Before(b, a)) && !Before(a, a)
  {
    if a != "" && b != "" && a[0] == b[0] {
      BeforeTotal(a[1..], b[1..]);
      assert a == [a[0]] + a[1..] && b == [b[0]] + b[1..];
    }
    if a != "" { BeforeTotal(a[1..], a[1..]); }
  }

  lemma {:induction false} BeforeTransitive(a: string, b: string, c: string)
    requires Before(a, b) && Before(b, c)
    ensures Before(a, c)
  {
    if a != "" && a[0] == b[0] == c[0] { BeforeTransitive(a[1..], b[1..], c[1..]); }
  }

  ghost predicate Ordered(members: seq<Member>) {
    forall i, j :: 0 <= i < j < |members| ==> Before(members[i].name, members[j].name)
  }

  function Insert(m: Member, sorted: seq<Member>): (r: seq<Member>)
    ensures multiset(r) == multiset(sorted) + multiset{m}
  {
    if sorted == [] then [m]
    else if Before(sorted[0].name, m.name) then
      assert sorted == [sorted[0]] + sorted[1..];
      [sorted[0]] + Insert(m, sorted[1..])
    else [m] + sorted
  }

  function Sorted(members: seq<Member>): (r: seq<Member>)
    ensures multiset(r) == multiset(members)
  {
    if members == [] then [] else
      assert members == [members[0]] + members[1..];
      Insert(members[0], Sorted(members[1..]))
  }

  /** The payload as its key digests it, whatever its formatting. */
  function CanonicalOf(text: string): Option<string> {
    var members := Payload(text);
    if members.None? then None
    else
      SortedKeeps(members.value);
      Some(Written(Object(Sorted(members.value))))
  }

  // ---------- sorting ----------

  lemma InMultiset<T>(a: seq<T>, b: seq<T>, i: nat)
    requires multiset(a) == multiset(b) && i < |a|
    ensures a[i] in b
  {
    assert a[i] in multiset(a);
  }

  ghost predicate Nameless(name: string, members: seq<Member>) {
    forall i :: 0 <= i < |members| ==> members[i].name != name
  }

  lemma OrderedCons(m: Member, sorted: seq<Member>)
    requires Ordered(sorted) && forall j :: 0 <= j < |sorted| ==> Before(m.name, sorted[j].name)
    ensures Ordered([m] + sorted)
  {
    hide Before;
  }

  lemma {:induction false} InsertOrders(m: Member, sorted: seq<Member>)
    requires Ordered(sorted) && Nameless(m.name, sorted)
    ensures Ordered(Insert(m, sorted))
  {
    hide Before;
    if sorted == [] {
    } else if Before(sorted[0].name, m.name) {
      var tail := Insert(m, sorted[1..]);
      InsertOrders(m, sorted[1..]);
      InsertHolds(m, sorted[1..]);
      forall j | 0 <= j < |tail| ensures Before(sorted[0].name, tail[j].name) { assert tail[j] in tail; }
      OrderedCons(sorted[0], tail);
    } else {
      BeforeTotal(sorted[0].name, m.name);
      forall j | 0 <= j < |sorted| ensures Before(m.name, sorted[j].name) {
        if j > 0 { BeforeTransitive(m.name, sorted[0].name, sorted[j].name); }
      }
      OrderedCons(m, sorted);
    }
  }

  lemma {:induction false} SortedOrders(members: seq<Member>)
    requires Distinct(members)
    ensures Ordered(Sorted(members))
  {
    if members != [] {
      var tail := Sorted(members[1..]);
      SortedOrders(members[1..]);
      forall i | 0 <= i < |tail| ensures tail[i].name != members[0].name {
        InMultiset(tail, members[1..], i);
      }
      InsertOrders(members[0], tail);
    }
  }

  lemma OrderedDistinct(members: seq<Member>)
    requires Ordered(members)
    ensures Distinct(members)
  {
    forall i, j | 0 <= i < j < |members| ensures members[i].name != members[j].name {
      BeforeTotal(members[i].name, members[i].name);
    }
  }

  lemma SortedKeeps(members: seq<Member>)
    requires ValidMembers(members) && Distinct(members)
    ensures Ordered(Sorted(members)) && Valid(Object(Sorted(members)))
  {
    SortedOrders(members);
    OrderedDistinct(Sorted(members));
    forall i | 0 <= i < |Sorted(members)| ensures Valid(Sorted(members)[i].value) {
      InMultiset(Sorted(members), members, i);
    }
  }

  /** The first of an ordered sequence comes before every other element. */
  lemma FirstIsLeast(a: seq<Member>, b: seq<Member>)
    requires Ordered(a) && Ordered(b) && a != [] && b != [] && multiset(a) == multiset(b)
    ensures a[0] == b[0]
  {
    InMultiset(a, b, 0);
    InMultiset(b, a, 0);
    BeforeTotal(a[0].name, b[0].name);
  }

  lemma {:induction false} OrderedUnique(a: seq<Member>, b: seq<Member>)
    requires Ordered(a) && Ordered(b) && multiset(a) == multiset(b)
    ensures a == b
  {
    if a == [] {
      assert |multiset(b)| == 0;
    } else {
      assert |multiset(a)| == |multiset(b)|;
      FirstIsLeast(a, b);
      assert a == [a[0]] + a[1..] && b == [b[0]] + b[1..];
      assert multiset(a[1..]) == multiset(a) - multiset{a[0]};
      assert multiset(b[1..]) == multiset(b) - multiset{b[0]};
      OrderedUnique(a[1..], b[1..]);
    }
  }

  // ---------- the canonical form ----------

  /** The text a key digests: the payload's members, by their names' order, with nothing between them. */
  lemma CanonicalLayout(text: string)
    requires Payload(text).Some?
    ensures var sorted := Sorted(Payload(text).value);
      && Ordered(sorted) && multiset(sorted) == multiset(Payload(text).value)
      && CanonicalOf(text) == Some("{" + CompactMembers(sorted) + "}")
  {
    SortedKeeps(Payload(text).value);
    WrittenIsCompact(Object(Sorted(Payload(text).value)));
  }

  /** Two payloads have one canonical form exactly when they hold the same top-level members, in whatever order, each
    * with the same value: nested member order and number literals count, whitespace and string escapes do not. */
  lemma SameCanonicalForm(a: string, b: string)
    requires Payload(a).Some? && Payload(b).Some?
    ensures CanonicalOf(a) == CanonicalOf(b) <==> multiset(Payload(a).value) == multiset(Payload(b).value)
  {
    var ma, mb := Payload(a).value, Payload(b).value;
    SortedKeeps(ma);
    SortedKeeps(mb);
    if CanonicalOf(a) == CanonicalOf(b) {
      WrittenReads(Object(Sorted(ma)));
      WrittenReads(Object(Sorted(mb)));
    }
    if multiset(ma) == multiset(mb) { OrderedUnique(Sorted(ma), Sorted(mb)); }
  }

  /** A canonical form is a payload, of the same request, and its own canonical form. */
  lemma CanonicalIsFixed(text: string)
    requires Payload(text).Some?
    ensures var canonical := CanonicalOf(text).value;
      && Payload(canonical) == Some(Sorted(Payload(text).value))
      && CanonicalOf(canonical) == Some(canonical)
  {
    var members := Payload(text).value;
    var canonical := CanonicalOf(text).value;
    SortedKeeps(members);
    WrittenReads(Object(Sorted(members)));
    assert SkipSpace("") == "";
    SameCanonicalForm(text, canonical);
  }

  /** Every spelling of one object is one request, with space around it or not. */
  lemma RespelledIsSame(sp: Spelling, lead: string, trail: string)
    requires Ok(sp) && sp.Recorded? && AllSpace(lead) && AllSpace(trail)
    ensures Payload(lead + TextOf(sp) + trail) == Some(Meaning(sp).members)
  {
    SpelledReads(sp, trail) by {
      assert trail != "" ==> Space(trail[0]);
    }
    var s := TextOf(sp) + trail;
    assert lead + TextOf(sp) + trail == lead + s;
    SkipsSpace(lead, s);
    SkipIrrelevant(lead + s, s);
    SkipsSpace(trail, "");
    assert trail + "" == trail;
  }

  /** And nothing else is: a text of the payload is space, a spelling of the object, and space. */
  lemma PayloadIsSpelled(text: string) returns (lead: string, sp: Spelling, trail: string)
    requires Payload(text).Some?
    ensures AllSpace(lead) && Ok(sp) && sp.Recorded? && AllSpace(trail)
    ensures Meaning(sp) == Object(Payload(text).value) && text == lead + TextOf(sp) + trail
  {
    lead, sp := ValueSpelled(text);
    trail := SpaceSplit(ReadValue(text).value.1);
  }

  lemma EmptyPayload()
    ensures Payload("{}") == Some([]) && CanonicalOf("{}") == Some("{}")
  {
    assert "{}"[1..] == "}" && "}"[1..] == "";
    assert SkipSpace("{}") == "{}" && SkipSpace("}") == "}" && SkipSpace("") == "";
    assert ReadValue("{}") == Some((Object([]), ""));
    assert Sorted([]) == [] && PlainMembers([]) == [];
    assert TextOf(Recorded([], "")) == "{}";
    assert Written(Object([])) == "{}";
  }

  // ---------- the code's own steps ----------

  /** Decodes the members into a map, and writes them sorted by name, whatever order the map is walked in. */
  method CanonicalPayload(payload: string) returns (canonical: Option<string>)
    ensures canonical == CanonicalOf(payload)
  {
    var sent := Payload(payload);
    if sent.None? {
      return None;
    }
    var members := MapOf(sent.value);
    var todo := members.Keys;
    var sorted: seq<Member> := [];
    ghost var done: set<string> := {};
    while todo != {}
      invariant done + todo == members.Keys && done !! todo
      invariant Ordered(sorted) && Walked(members, done, sorted)
      decreases |todo|
    {
      var name :| name in todo;
      WalkOne(members, done, sorted, name);
      sorted := Insert(Member(name, members[name]), sorted);
      todo := todo - {name};
      done := done + {name};
    }
    WalkedWhole(sent.value, sorted);
    canonical := Some(Written(Object(sorted)));
  }

  /** The sorted members are those of the names walked so far. */
  ghost predicate Walked(members: map<string, Value>, done: set<string>, sorted: seq<Member>) {
    forall m :: m in sorted <==> m.name in done && m.name in members && members[m.name] == m.value
  }

  lemma WalkOne(members: map<string, Value>, done: set<string>, sorted: seq<Member>, name: string)
    requires Ordered(sorted) && Walked(members, done, sorted) && name in members && name !in done
    ensures var longer := Insert(Member(name, members[name]), sorted);
      Ordered(longer) && Walked(members, done + {name}, longer)
  {
    hide Ordered, Insert;
    forall i | 0 <= i < |sorted| ensures sorted[i].name != name { assert sorted[i] in sorted; }
    InsertOrders(Member(name, members[name]), sorted);
    InsertHolds(Member(name, members[name]), sorted);
  }

  lemma WalkedWhole(sent: seq<Member>, sorted: seq<Member>)
    requires ValidMembers(sent) && Distinct(sent)
    requires Ordered(sorted) && Walked(MapOf(sent), MapOf(sent).Keys, sorted)
    ensures sorted == Sorted(sent) && Valid(Object(sorted))
  {
    MapHolds(sent);
    forall m ensures m in sorted <==> m in sent { assert m == Member(m.name, m.value); }
    SameElements(sorted, sent);
    SortedKeeps(sent);
    OrderedUnique(sorted, Sorted(sent));
  }

  function MapOf(members: seq<Member>): map<string, Value> {
    if members == [] then map[] else MapOf(members[1..])[members[0].name := members[0].value]
  }

  lemma InsertHolds(m: Member, sorted: seq<Member>)
    ensures forall x :: x in Insert(m, sorted) <==> x == m || x in sorted
  {
    forall x ensures x in Insert(m, sorted) <==> x == m || x in sorted {
      assert x in Insert(m, sorted) <==> x in multiset(Insert(m, sorted));
      assert x in sorted <==> x in multiset(sorted);
    }
  }

  lemma {:induction false} MapHolds(members: seq<Member>)
    requires Distinct(members)
    ensures forall name, value :: Member(name, value) in members <==> name in MapOf(members) && MapOf(members)[name] == value
  {
    if members != [] {
      MapHolds(members[1..]);
      assert members == [members[0]] + members[1..];
      assert members[0].name !in MapOf(members[1..]) by {
        if members[0].name in MapOf(members[1..]) {
          assert Member(members[0].name, MapOf(members[1..])[members[0].name]) in members[1..];
        }
      }
    }
  }

  lemma {:induction false} SameElements(a: seq<Member>, b: seq<Member>)
    requires Ordered(a) && Distinct(b) && forall m :: m in a <==> m in b
    ensures multiset(a) == multiset(b)
  {
    OrderedDistinct(a);
    forall m ensures multiset(a)[m] == multiset(b)[m] {
      OneAtMost(a, m);
      OneAtMost(b, m);
    }
  }

  lemma {:induction false} OneAtMost(a: seq<Member>, m: Member)
    requires Distinct(a)
    ensures multiset(a)[m] == if m in a then 1 else 0
  {
    if a != [] {
      assert a == [a[0]] + a[1..];
      OneAtMost(a[1..], m);
    }
  }
}
