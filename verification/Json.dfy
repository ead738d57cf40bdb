/** JSON texts: how they are read, and every way to spell one value. */
module Json {
  import opened Types

  /** Members keep their order and numbers their literal. Strings are what their escapes stand for. */
  datatype Value =
    | Null
    | True
    | False
    | Number(literal: string)
    | Text(text: string)
    | Array(items: seq<Value>)
    | Object(members: seq<Member>)

  datatype Member = Member(name: string, value: Value)

  // ---------- reading ----------

  predicate Space(c: char) {
    c == ' ' || c == '\t' || c == '\n' || c == '\r'
  }

  function SkipSpace(s: string): (r: string)
    ensures |r| <= |s|
  {
    if s != "" && Space(s[0]) then SkipSpace(s[1..]) else s
  }

  predicate Digit(c: char) {
    '0' <= c <= '9'
  }

  predicate NumberChar(c: char) {
    Digit(c) || c == '-' || c == '+' || c == '.' || c == 'e' || c == 'E'
  }

  function DropDigits(s: string): (r: string)
    ensures |r| <= |s|
  {
    if s != "" && Digit(s[0]) then DropDigits(s[1..]) else s
  }

  /** The literal without its minus sign and its whole part, when it has a whole part. */
  function AfterWhole(s: string): Option<string> {
    var t := if s != "" && s[0] == '-' then s[1..] else s;
    if t == "" || !Digit(t[0]) then None
    else if t[0] == '0' then Some(t[1..])
    else Some(DropDigits(t))
  }

  function AfterFraction(s: string): Option<string> {
    if s == "" || s[0] != '.' then Some(s)
    else if |s| == 1 || !Digit(s[1]) then None
    else Some(DropDigits(s[1..]))
  }

  function AfterExponent(s: string): Option<string> {
    if s == "" || (s[0] != 'e' && s[0] != 'E') then Some(s)
    else
      var t := if |s| > 1 && (s[1] == '+' || s[1] == '-') then s[2..] else s[1..];
      if t == "" || !Digit(t[0]) then None else Some(DropDigits(t))
  }

  predicate ValidNumber(s: string) {
    && (forall i :: 0 <= i < |s| ==> NumberChar(s[i]))
    && AfterWhole(s).Some?
    && AfterFraction(AfterWhole(s).value).Some?
    && AfterExponent(AfterFraction(AfterWhole(s).value).value) == Some("")
  }

  function NumberRun(s: string): (n: nat)
    ensures n <= |s| && forall i :: 0 <= i < n ==> NumberChar(s[i])
  {
    if s != "" && NumberChar(s[0]) then 1 + NumberRun(s[1..]) else 0
  }

  function HexDigit(c: char): (r: Option<nat>)
    ensures r.Some? ==> r.value < 16
  {
    if '0' <= c <= '9' then Some((c - '0') as nat)
    else if 'a' <= c <= 'f' then Some(10 + (c - 'a') as nat)
    else if 'A' <= c <= 'F' then Some(10 + (c - 'A') as nat)
    else None
  }

  /** The code unit that four hexadecimal digits name. */
  function CodeUnit(s: string): (r: Option<nat>)
    ensures r.Some? ==> |s| >= 4 && r.value < 0x10000
  {
    if |s| < 4 then None
    else
      var a, b, c, d := HexDigit(s[0]), HexDigit(s[1]), HexDigit(s[2]), HexDigit(s[3]);
      if a.None? || b.None? || c.None? || d.None? then None
      else Some(a.value * 4096 + b.value * 256 + c.value * 16 + d.value)
  }

  predicate HighSurrogate(unit: nat) {
    0xD800 <= unit < 0xDC00
  }

  predicate LowSurrogate(unit: nat) {
    0xDC00 <= unit < 0xE000
  }

  function Unescape(sign: char): Option<char> {
    match sign
    case '"' => Some('"')
    case '\\' => Some('\\')
    case '/' => Some('/')
    case 'b' => Some('\U{8}')
    case 'f' => Some('\U{C}')
    case 'n' => Some('\n')
    case 'r' => Some('\r')
    case 't' => Some('\t')
    case _ => None
  }

  /** One letter of a string and how many characters spell it. An unpaired surrogate is no letter. */
  function ReadLetter(s: string): (r: Option<(char, nat)>)
    ensures r.Some? ==> 0 < r.value.1 <= |s|
  {
    if s == "" || s[0] < ' ' || s[0] == '"' then None
    else if s[0] != '\\' then Some((s[0], 1))
    else if |s| == 1 then None
    else if s[1] != 'u' then
      var c := Unescape(s[1]);
      if c.None? then None else Some((c.value, 2))
    else
      var unit := CodeUnit(s[2..]);
      if unit.None? || LowSurrogate(unit.value) then None
      else if !HighSurrogate(unit.value) then Some((unit.value as char, 6))
      else if |s| < 12 || s[6] != '\\' || s[7] != 'u' then None
      else
        var low := CodeUnit(s[8..]);
        if low.None? || !LowSurrogate(low.value) then None
        else Some(((0x10000 + (unit.value - 0xD800) * 0x400 + (low.value - 0xDC00)) as char, 12))
  }

  /** A string after its opening quote, and what follows its closing one. */
  function ReadString(s: string): (r: Option<(string, string)>)
    ensures r.Some? ==> |r.value.1| < |s|
    decreases |s|
  {
    if s != "" && s[0] == '"' then Some(("", s[1..]))
    else
      var letter := ReadLetter(s);
      if letter.None? then None
      else
        var tail := ReadString(s[letter.value.1..]);
        if tail.None? then None else Some(([letter.value.0] + tail.value.0, tail.value.1))
  }

  predicate Distinct(members: seq<Member>) {
    forall i, j :: 0 <= i < j < |members| ==> members[i].name != members[j].name
  }

  function ReadWord(s: string, word: string, value: Value): (r: Option<(Value, string)>)
    requires word != ""
    ensures r.Some? ==> |r.value.1| < |s|
  {
    if word <= s then Some((value, s[|word|..])) else None
  }

  function ReadNumber(s: string): (r: Option<(Value, string)>)
    ensures r.Some? ==> |r.value.1| < |s|
  {
    var n := NumberRun(s);
    if n > 0 && ValidNumber(s[..n]) then Some((Number(s[..n]), s[n..])) else None
  }

  /** A value, and what follows it. No object may repeat a member name. */
  function ReadValue(s: string): (r: Option<(Value, string)>)
    ensures r.Some? ==> |r.value.1| < |s|
    decreases |s|, 0
  {
    var t := SkipSpace(s);
    if t == "" then None
    else if t[0] == '"' then
      var text := ReadString(t[1..]);
      if text.None? then None else Some((Text(text.value.0), text.value.1))
    else if t[0] == '[' then
      var u := SkipSpace(t[1..]);
      if u != "" && u[0] == ']' then Some((Array([]), u[1..]))
      else
        var items := ReadItems(u);
        if items.None? then None else Some((Array(items.value.0), items.value.1))
    else if t[0] == '{' then
      var u := SkipSpace(t[1..]);
      if u != "" && u[0] == '}' then Some((Object([]), u[1..]))
      else
        var members := ReadMembers(u);
        if members.None? || !Distinct(members.value.0) then None else Some((Object(members.value.0), members.value.1))
    else if t[0] == 'n' then ReadWord(t, "null", Null)
    else if t[0] == 't' then ReadWord(t, "true", True)
    else if t[0] == 'f' then ReadWord(t, "false", False)
    else ReadNumber(t)
  }

  /** The items of an array up to its closing bracket. */
  function ReadItems(s: string): (r: Option<(seq<Value>, string)>)
    ensures r.Some? ==> |r.value.1| < |s|
    decreases |s|, 1
  {
    var first := ReadValue(s);
    if first.None? then None
    else
      var t := SkipSpace(first.value.1);
      if t == "" then None
      else if t[0] == ']' then Some(([first.value.0], t[1..]))
      else if t[0] != ',' then None
      else
        var others := ReadItems(t[1..]);
        if others.None? then None else Some(([first.value.0] + others.value.0, others.value.1))
  }

  /** A member's name and its colon, and what follows. */
  function ReadName(s: string): (r: Option<(string, string)>)
    ensures r.Some? ==> |r.value.1| < |s|
  {
    var t := SkipSpace(s);
    if t == "" || t[0] != '"' then None
    else
      var name := ReadString(t[1..]);
      if name.None? then None
      else
        var u := SkipSpace(name.value.1);
        if u == "" || u[0] != ':' then None else Some((name.value.0, u[1..]))
  }

  /** The members of an object up to its closing brace. */
  function ReadMembers(s: string): (r: Option<(seq<Member>, string)>)
    ensures r.Some? ==> |r.value.1| < |s|
    decreases |s|, 1
  {
    var name := ReadName(s);
    if name.None? then None
    else
      var value := ReadValue(name.value.1);
      if value.None? then None
      else
        var member := Member(name.value.0, value.value.0);
        var t := SkipSpace(value.value.1);
        if t == "" then None
        else if t[0] == '}' then Some(([member], t[1..]))
        else if t[0] != ',' then None
        else
          var others := ReadMembers(t[1..]);
          if others.None? then None else Some(([member] + others.value.0, others.value.1))
  }

  // ---------- spellings ----------

  /** One way to write one letter of a string. */
  datatype Letter = Raw(c: char) | Short(sign: char) | Coded(hex: string) | Paired(high: string, low: string)

  /** One way to write one value: its whitespace, and the letters of its strings. */
  datatype Spelling =
    | Plain(value: Value)
    | Quoted(letters: seq<Letter>)
    | Listed(elements: seq<Element>, inner: string)
    | Recorded(fields: seq<Field>, inner: string)

  datatype Element = Element(lead: string, spelling: Spelling, trail: string)

  datatype Field = Field(lead: string, name: seq<Letter>, mid: string, element: Element)

  predicate AllSpace(s: string) {
    forall i :: 0 <= i < |s| ==> Space(s[i])
  }

  predicate LetterOk(l: Letter) {
    match l
    case Raw(c) => c >= ' ' && c != '"' && c != '\\'
    case Short(sign) => Unescape(sign).Some?
    case Coded(hex) =>
      && |hex| == 4 && CodeUnit(hex).Some?
      && !LowSurrogate(CodeUnit(hex).value) && !HighSurrogate(CodeUnit(hex).value)
    case Paired(high, low) =>
      && |high| == 4 && |low| == 4 && CodeUnit(high).Some? && CodeUnit(low).Some?
      && HighSurrogate(CodeUnit(high).value) && LowSurrogate(CodeUnit(low).value)
  }

  function LetterText(l: Letter): string {
    match l
    case Raw(c) => [c]
    case Short(sign) => ['\\', sign]
    case Coded(hex) => "\\u" + hex
    case Paired(high, low) => "\\u" + high + "\\u" + low
  }

  function LetterOf(l: Letter): char
    requires LetterOk(l)
  {
    match l
    case Raw(c) => c
    case Short(sign) => Unescape(sign).value
    case Coded(hex) => CodeUnit(hex).value as char
    case Paired(high, low) =>
      (0x10000 + (CodeUnit(high).value - 0xD800) * 0x400 + (CodeUnit(low).value - 0xDC00)) as char
  }

  predicate LettersOk(letters: seq<Letter>) {
    forall i :: 0 <= i < |letters| ==> LetterOk(letters[i])
  }

  function LettersText(letters: seq<Letter>): string {
    if letters == [] then "" else LetterText(letters[0]) + LettersText(letters[1..])
  }

  function LettersOf(letters: seq<Letter>): string
    requires LettersOk(letters)
  {
    if letters == [] then "" else [LetterOf(letters[0])] + LettersOf(letters[1..])
  }

  function QuotedText(letters: seq<Letter>): string {
    "\"" + LettersText(letters) + "\""
  }

  predicate WordOk(v: Value) {
    v.Null? || v.True? || v.False? || (v.Number? && ValidNumber(v.literal))
  }

  function WordText(v: Value): string {
    match v
    case Null => "null"
    case True => "true"
    case False => "false"
    case Number(literal) => literal
    case _ => ""
  }

  predicate Ok(sp: Spelling) {
    match sp
    case Plain(v) => WordOk(v)
    case Quoted(letters) => LettersOk(letters)
    case Listed(elements, inner) => AllSpace(inner) && ElementsOk(elements)
    case Recorded(fields, inner) => AllSpace(inner) && FieldsOk(fields) && NamesDistinct(fields)
  }

  predicate NamesDistinct(fs: seq<Field>)
    requires forall i :: 0 <= i < |fs| ==> LettersOk(fs[i].name)
  {
    forall i, j :: 0 <= i < j < |fs| ==> LettersOf(fs[i].name) != LettersOf(fs[j].name)
  }

  predicate ElementsOk(es: seq<Element>) {
    forall i :: 0 <= i < |es| ==> AllSpace(es[i].lead) && Ok(es[i].spelling) && AllSpace(es[i].trail)
  }

  predicate FieldsOk(fs: seq<Field>) {
    forall i :: 0 <= i < |fs| ==>
      && AllSpace(fs[i].lead) && LettersOk(fs[i].name) && AllSpace(fs[i].mid)
      && AllSpace(fs[i].element.lead) && Ok(fs[i].element.spelling) && AllSpace(fs[i].element.trail)
  }

  function TextOf(sp: Spelling): string {
    match sp
    case Plain(v) => WordText(v)
    case Quoted(letters) => QuotedText(letters)
    case Listed(elements, inner) => "[" + (if elements == [] then inner else ElementsText(elements)) + "]"
    case Recorded(fields, inner) => "{" + (if fields == [] then inner else FieldsText(fields)) + "}"
  }

  function ElementText(e: Element): string {
    e.lead + TextOf(e.spelling) + e.trail
  }

  function ElementsText(es: seq<Element>): string {
    if es == [] then "" else ElementText(es[0]) + (if |es| == 1 then "" else "," + ElementsText(es[1..]))
  }

  function FieldText(f: Field): string {
    f.lead + QuotedText(f.name) + f.mid + ":" + ElementText(f.element)
  }

  function FieldsText(fs: seq<Field>): string {
    if fs == [] then "" else FieldText(fs[0]) + (if |fs| == 1 then "" else "," + FieldsText(fs[1..]))
  }

  function Meaning(sp: Spelling): Value
    requires Ok(sp)
  {
    match sp
    case Plain(v) => v
    case Quoted(letters) => Text(LettersOf(letters))
    case Listed(elements, _) => Array(ItemsOf(elements))
    case Recorded(fields, _) => Object(MembersOf(fields))
  }

  function ItemsOf(es: seq<Element>): seq<Value>
    requires ElementsOk(es)
  {
    if es == [] then [] else [Meaning(es[0].spelling)] + ItemsOf(es[1..])
  }

  function MembersOf(fs: seq<Field>): seq<Member>
    requires FieldsOk(fs)
  {
    if fs == [] then []
    else [Member(LettersOf(fs[0].name), Meaning(fs[0].element.spelling))] + MembersOf(fs[1..])
  }
}
