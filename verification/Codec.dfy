/** How a plan is turned into bytes, and why comparing bytes and checksums compares
    plans: Go's encoding of the plan struct (omitempty fields in declaration order,
    strings escaped as section 7 of RFC 8259 allows) and lower-case hexadecimal
    (section 8 of RFC 4648). */
module Codec {
  import opened Objects
  import opened Instructions

  // ---- Hexadecimal ------------------------------------------------------------------------

  type Byte = n: int | 0 <= n < 256

  type Nibble = n: int | 0 <= n < 16

  function HexDigit(n: Nibble): char {
    if n < 10 then '0' + n as char else 'a' + (n - 10) as char
  }

  function HexValue(d: char): Option<Nibble> {
    if '0' <= d <= '9' then Some((d - '0') as int)
    else if 'a' <= d <= 'f' then Some((d - 'a') as int + 10)
    else None
  }

  lemma HexDigitValue(n: Nibble)
    ensures HexValue(HexDigit(n)) == Some(n)
  {
  }

  function HexByte(b: Byte): (r: string)
    ensures |r| == 2
  {
    [HexDigit(b / 16), HexDigit(b % 16)]
  }

  function HexEncode(bytes: seq<Byte>): (r: string)
    ensures |r| == 2 * |bytes|
  {
    if bytes == [] then [] else HexByte(bytes[0]) + HexEncode(bytes[1..])
  }

  /** `hex.EncodeToString` loses nothing. */
  lemma {:induction false} HexInjective(a: seq<Byte>, b: seq<Byte>)
    requires HexEncode(a) == HexEncode(b)
    ensures a == b
  {
    if a != [] {
      assert |a| == |b|;
      HexDigitValue(a[0] / 16);
      HexDigitValue(a[0] % 16);
      HexDigitValue(b[0] / 16);
      HexDigitValue(b[0] % 16);
      assert HexEncode(a)[0] == HexEncode(b)[0] && HexEncode(a)[1] == HexEncode(b)[1];
      assert HexEncode(a[1..]) == HexEncode(a)[2..] && HexEncode(b[1..]) == HexEncode(b)[2..];
      HexInjective(a[1..], b[1..]);
    }
  }

  const HEX := "0123456789abcdef"

  /** The text of section 8 of RFC 4648, lower case: two digits a byte, the high one first. */
  predicate IsHexOf(text: string, bytes: seq<Byte>) {
    && |text| == 2 * |bytes|
    && forall i :: 0 <= i < |bytes| ==> text[2 * i] == HEX[bytes[i] / 16] && text[2 * i + 1] == HEX[bytes[i] % 16]
  }

  lemma HexDigitIs(n: Nibble)
    ensures HexDigit(n) == HEX[n]
  {
  }

  lemma {:induction false} HexEncodeIs(bytes: seq<Byte>)
    ensures IsHexOf(HexEncode(bytes), bytes)
  {
    if bytes != [] {
      var rest := HexEncode(bytes[1..]);
      HexEncodeIs(bytes[1..]);
      HexDigitIs(bytes[0] / 16);
      HexDigitIs(bytes[0] % 16);
      forall i | 0 <= i < |bytes|
        ensures HexEncode(bytes)[2 * i] == HEX[bytes[i] / 16] && HexEncode(bytes)[2 * i + 1] == HEX[bytes[i] % 16]
      {
        if i > 0 {
          assert HexEncode(bytes)[2 * i] == rest[2 * (i - 1)];
          assert HexEncode(bytes)[2 * i + 1] == rest[2 * (i - 1) + 1];
        }
      }
    }
  }

  lemma HexIsUnique(text: string, bytes: seq<Byte>)
    requires IsHexOf(text, bytes)
    ensures text == HexEncode(bytes)
  {
    HexEncodeIs(bytes);
    var other := HexEncode(bytes);
    forall k | 0 <= k < |text| ensures text[k] == other[k] {
      var i := k / 2;
      assert text[2 * i] == other[2 * i] && text[2 * i + 1] == other[2 * i + 1];
    }
  }

  // ---- Strings -----------------------------------------------------------------------------

  /** `\uXXXX` for a code below 65536. */
  function Unicode(code: int): string
    requires 0 <= code < 0x1_0000
  {
    ['\\', 'u'] + HexByte(code / 256) + HexByte(code % 256)
  }

  /** The escapes of Go's encoder, which also hides the characters HTML gives a meaning. */
  function Escape(ch: char): string {
    if ch == '"' then ['\\', '"']
    else if ch == '\\' then ['\\', '\\']
    else if ch == '\n' then ['\\', 'n']
    else if ch == '\r' then ['\\', 'r']
    else if ch == '\t' then ['\\', 't']
    else if ch < ' ' || ch == '<' || ch == '>' || ch == '&' || ch == '\U{2028}' || ch == '\U{2029}'
    then Unicode(ch as int)
    else [ch]
  }

  function EscapeAll(s: string): string {
    if s == "" then "" else Escape(s[0]) + EscapeAll(s[1..])
  }

  datatype Read<T> = Bad | Got(value: T, rest: string)

  /** The short escapes of section 7 of RFC 8259. */
  function ShortEscape(ch: char): Option<char> {
    match ch
    case '"' => Some('"')
    case '\\' => Some('\\')
    case '/' => Some('/')
    case 'b' => Some('\U{0008}')
    case 'f' => Some('\U{000C}')
    case 'n' => Some('\n')
    case 'r' => Some('\r')
    case 't' => Some('\t')
    case _ => None
  }

  function TwoDigits(a: char, b: char): Option<Byte> {
    if HexValue(a).Some? && HexValue(b).Some? then Some(16 * HexValue(a).value + HexValue(b).value) else None
  }

  function FourDigits(s: string): Option<int>
    requires |s| >= 4
  {
    var high, low := TwoDigits(s[0], s[1]), TwoDigits(s[2], s[3]);
    if high.Some? && low.Some? then Some(256 * high.value + low.value) else None
  }

  /** One character of a string, escaped or not; surrogate pairs are not read. */
  function ReadChar(s: string): (r: Read<char>)
    ensures r.Got? ==> |r.rest| < |s|
  {
    if s == "" || s[0] == '"' then Bad
    else if s[0] != '\\' then Got(s[0], s[1..])
    else if |s| >= 6 && s[1] == 'u' then
      var code := FourDigits(s[2..]);
      if code.Some? && 0 <= code.value < 0xD800 then Got(code.value as char, s[6..]) else Bad
    else if |s| >= 2 && ShortEscape(s[1]).Some? then Got(ShortEscape(s[1]).value, s[2..])
    else Bad
  }

  /** The rest of a string after its opening quote. */
  function ReadString(s: string): (r: Read<string>)
    ensures r.Got? ==> |r.rest| < |s|
    decreases |s|
  {
    if s != "" && s[0] == '"' then Got("", s[1..])
    else
      var first := ReadChar(s);
      if first.Bad? then Bad
      else
        var others := ReadString(first.rest);
        if others.Bad? then Bad else Got([first.value] + others.value, others.rest)
  }

  lemma TwoDigitsBack(b: Byte)
    ensures TwoDigits(HexByte(b)[0], HexByte(b)[1]) == Some(b)
  {
    HexDigitValue(b / 16);
    HexDigitValue(b % 16);
  }

  lemma FourDigitsBack(code: int, rest: string)
    requires 0 <= code < 0x1_0000
    ensures FourDigits(Unicode(code)[2..] + rest) == Some(code)
  {
    TwoDigitsBack(code / 256);
    TwoDigitsBack(code % 256);
  }

  lemma ReadEscaped(ch: char, rest: string)
    ensures ReadChar(Escape(ch) + rest) == Got(ch, rest)
    ensures |Escape(ch)| > 0 && (Escape(ch) + rest)[0] != '"'
  {
    var s := Escape(ch) + rest;
    if |Escape(ch)| == 6 {
      FourDigitsBack(ch as int, rest);
      assert s[2..] == Unicode(ch as int)[2..] + rest && s[6..] == rest;
    } else if |Escape(ch)| == 2 {
      assert s[2..] == rest;
    } else {
      assert s[1..] == rest;
    }
  }

  /** Reading back an escaped string gives the string, whatever follows its quote. */
  lemma {:induction false} ReadEscapedAll(t: string, after: string)
    requires after != "" && after[0] == '"'
    ensures ReadString(EscapeAll(t) + after) == Got(t, after[1..])
    decreases |t|
  {
    var s := EscapeAll(t) + after;
    if t == "" {
      assert s == after;
    } else {
      var later := EscapeAll(t[1..]) + after;
      assert s == Escape(t[0]) + later;
      ReadEscaped(t[0], later);
      ReadEscapedAll(t[1..], after);
      assert [t[0]] + t[1..] == t;
    }
  }

  // ---- Values --------------------------------------------------------------------------------

  datatype Value = Text(text: string) | Flag(on: bool) | Array(items: Items) | Object(members: Members)

  datatype Items = NoItem | Item(first: Value, others: Items)

  datatype Members = NoMember | Member(name: string, value: Value, more: Members)

  function Quoted(s: string): string { ['"'] + (EscapeAll(s) + ['"']) }

  function Print(v: Value): string
    decreases v, 0
  {
    match v
    case Text(s) => Quoted(s)
    case Flag(on) => if on then "true" else "false"
    case Array(items) => "[" + PrintItems(items, true)
    case Object(members) => "{" + PrintMembers(members, true)
  }

  function PrintItems(items: Items, start: bool): string
    decreases items, 2
  {
    match items
    case NoItem => "]"
    case Item(v, others) => Comma(start) + (Print(v) + PrintItems(others, false))
  }

  function PrintMembers(members: Members, start: bool): string
    decreases members, 2
  {
    match members
    case NoMember => "}"
    case Member(name, v, more) => Comma(start) + (PrintMember(name, v) + PrintMembers(more, false))
  }

  function PrintMember(name: string, v: Value): string
    decreases v, 1
  {
    Quoted(name) + (":" + Print(v))
  }

  function Comma(start: bool): string { if start then "" else "," }

  /** Reads one value from the front of a text without white space. */
  function Parse(s: string): (r: Read<Value>)
    ensures r.Got? ==> |r.rest| < |s|
    decreases |s|, 0
  {
    if s == "" then Bad
    else if s[0] == '"' then
      var t := ReadString(s[1..]);
      if t.Bad? then Bad else Got(Text(t.value), t.rest)
    else if s[0] == '[' then
      var items := ParseItems(s[1..], true);
      if items.Bad? then Bad else Got(Array(items.value), items.rest)
    else if s[0] == '{' then
      var members := ParseMembers(s[1..], true);
      if members.Bad? then Bad else Got(Object(members.value), members.rest)
    else if "true" <= s then Got(Flag(true), s[4..])
    else if "false" <= s then Got(Flag(false), s[5..])
    else Bad
  }

  function ParseItems(s: string, start: bool): (r: Read<Items>)
    ensures r.Got? ==> |r.rest| < |s|
    decreases |s|, 1
  {
    if s == "" then Bad
    else if s[0] == ']' then Got(NoItem, s[1..])
    else if !start && s[0] != ',' then Bad
    else
      var v := Parse(if start then s else s[1..]);
      if v.Bad? then Bad
      else
        var others := ParseItems(v.rest, false);
        if others.Bad? then Bad else Got(Item(v.value, others.value), others.rest)
  }

  /** A name, a colon and a value. */
  function ParseMember(s: string): (r: Read<(string, Value)>)
    ensures r.Got? ==> |r.rest| < |s|
    decreases |s|, 1
  {
    if s == "" || s[0] != '"' then Bad
    else
      var name := ReadString(s[1..]);
      if name.Bad? || name.rest == "" || name.rest[0] != ':' then Bad
      else
        var v := Parse(name.rest[1..]);
        if v.Bad? then Bad else Got((name.value, v.value), v.rest)
  }

  function ParseMembers(s: string, start: bool): (r: Read<Members>)
    ensures r.Got? ==> |r.rest| < |s|
    decreases |s|, 2
  {
    if s == "" then Bad
    else if s[0] == '}' then Got(NoMember, s[1..])
    else if !start && s[0] != ',' then Bad
    else
      var first := ParseMember(if start then s else s[1..]);
      if first.Bad? then Bad
      else
        var more := ParseMembers(first.rest, false);
        if more.Bad? then Bad else Got(Member(first.value.0, first.value.1, more.value), more.rest)
  }

  lemma PrintStarts(v: Value)
    ensures |Print(v)| > 0 && Print(v)[0] != ']' && Print(v)[0] != '}' && Print(v)[0] != ','
  {
  }

  lemma ParseQuoted(t: string, rest: string)
    ensures (Quoted(t) + rest)[0] == '"'
    ensures ReadString((Quoted(t) + rest)[1..]) == Got(t, rest)
  {
    var after := ['"'] + rest;
    assert (Quoted(t) + rest)[1..] == EscapeAll(t) + after && after[1..] == rest;
    ReadEscapedAll(t, after);
  }

  /** What a list looks like after its comma. */
  lemma AfterComma(start: bool, first: string, more: string, rest: string)
    ensures var s := Comma(start) + (first + more) + rest;
            && (!start ==> s != "" && s[0] == ',') && (if start then s else s[1..]) == first + (more + rest)
  {
    var s := Comma(start) + (first + more) + rest;
    if start {
      assert s == first + (more + rest);
    } else {
      assert s[1..] == first + (more + rest);
    }
  }

  /** Parsing what was printed gives the value back and leaves what follows. */
  lemma {:induction false} ParsePrint(v: Value, rest: string)
    ensures Parse(Print(v) + rest) == Got(v, rest)
    decreases v, 0
  {
    var s := Print(v) + rest;
    match v
    case Text(t) => ParseQuoted(t, rest);
    case Flag(on) => assert s[|Print(v)|..] == rest;
    case Array(items) =>
      assert s[1..] == PrintItems(items, true) + rest;
      ParsePrintItems(items, true, rest);
    case Object(members) =>
      assert s[1..] == PrintMembers(members, true) + rest;
      ParsePrintMembers(members, true, rest);
  }

  lemma {:induction false} ParsePrintItems(items: Items, start: bool, rest: string)
    ensures ParseItems(PrintItems(items, start) + rest, start) == Got(items, rest)
    decreases items, 2
  {
    match items
    case NoItem => assert (PrintItems(items, start) + rest)[1..] == rest;
    case Item(v, others) =>
      var later := PrintItems(others, false) + rest;
      PrintStarts(v);
      AfterComma(start, Print(v), PrintItems(others, false), rest);
      ParsePrint(v, later);
      ParsePrintItems(others, false, rest);
  }

  lemma ColonNext(name: string, v: string, later: string)
    ensures Quoted(name) + (":" + v) + later == Quoted(name) + (":" + (v + later))
  {
  }

  lemma {:induction false} ParsePrintMember(name: string, v: Value, later: string)
    ensures ParseMember(PrintMember(name, v) + later) == Got((name, v), later)
    decreases v, 1
  {
    var after := ":" + (Print(v) + later);
    ColonNext(name, Print(v), later);
    ParseQuoted(name, after);
    assert after[1..] == Print(v) + later;
    ParsePrint(v, later);
  }

  lemma MemberStarts(name: string, v: Value)
    ensures |PrintMember(name, v)| > 0 && PrintMember(name, v)[0] == '"'
  {
  }

  lemma {:induction false} ParsePrintMembers(members: Members, start: bool, rest: string)
    ensures ParseMembers(PrintMembers(members, start) + rest, start) == Got(members, rest)
    decreases members, 2
  {
    match members
    case NoMember => assert (PrintMembers(members, start) + rest)[1..] == rest;
    case Member(name, v, more) =>
      MemberStarts(name, v);
      AfterComma(start, PrintMember(name, v), PrintMembers(more, false), rest);
      ParsePrintMember(name, v, PrintMembers(more, false) + rest);
      ParsePrintMembers(more, false, rest);
  }

  // ---- Plans -----------------------------------------------------------------------------------

  function TextMember(name: string, s: string, more: Members): Members {
    if s == "" then more else Member(name, Text(s), more)
  }

  function ListMember(name: string, l: seq<string>, more: Members): Members {
    if l == [] then more else Member(name, Array(Texts(l)), more)
  }

  function FlagMember(name: string, on: bool, more: Members): Members {
    if on then Member(name, Flag(true), more) else more
  }

  function Texts(l: seq<string>): Items {
    if l == [] then NoItem else Item(Text(l[0]), Texts(l[1..]))
  }

  function InstructionMembers(i: OneTimeInstruction): Members {
    TextMember("name", i.name, TextMember("image", i.image, ListMember("env", i.env, ListMember("args", i.args,
      TextMember("command", i.command, FlagMember("saveOutput", i.saveOutput, NoMember))))))
  }

  function InstructionItems(l: seq<OneTimeInstruction>): Items {
    if l == [] then NoItem else Item(Object(InstructionMembers(l[0])), InstructionItems(l[1..]))
  }

  /** `json.Marshal(Plan{...})` */
  function InstructionsAsJson(l: seq<OneTimeInstruction>): string {
    Print(Object(if l == [] then NoMember else Member("instructions", Array(InstructionItems(l)), NoMember)))
  }

  function Find(m: Members, name: string): Option<Value> {
    match m
    case NoMember => None
    case Member(n, v, more) => if n == name then Some(v) else Find(more, name)
  }

  function TextAt(m: Members, name: string): string {
    match Find(m, name)
    case Some(Text(s)) => s
    case _ => ""
  }

  function ListAt(m: Members, name: string): seq<string> {
    match Find(m, name)
    case Some(Array(items)) => TextsOf(items)
    case _ => []
  }

  function TextsOf(items: Items): seq<string> {
    match items
    case NoItem => []
    case Item(v, others) => (if v.Text? then [v.text] else []) + TextsOf(others)
  }

  function InstructionOf(m: Members): OneTimeInstruction {
    OneTimeInstruction(TextAt(m, "name"), TextAt(m, "image"), ListAt(m, "env"), ListAt(m, "args"),
                       TextAt(m, "command"), Find(m, "saveOutput") == Some(Flag(true)))
  }

  function InstructionsOf(items: Items): seq<OneTimeInstruction> {
    match items
    case NoItem => []
    case Item(v, others) => (if v.Object? then [InstructionOf(v.members)] else []) + InstructionsOf(others)
  }

  /** `json.Unmarshal` into a plan. */
  function PlanFromJson(s: string): Option<seq<OneTimeInstruction>> {
    match Parse(s)
    case Got(Object(m), "") =>
      (match Find(m, "instructions")
       case Some(Array(items)) => Some(InstructionsOf(items))
       case _ => Some([]))
    case _ => None
  }

  lemma {:induction false} TextsBack(l: seq<string>)
    ensures TextsOf(Texts(l)) == l
    decreases |l|
  {
    if l != [] {
      TextsBack(l[1..]);
    }
  }

  lemma FieldNamesDiffer()
    ensures "name" != "image" && "name" != "env" && "name" != "args" && "name" != "command" && "name" != "saveOutput"
    ensures "image" != "env" && "image" != "args" && "image" != "command" && "image" != "saveOutput"
    ensures "env" != "args" && "env" != "command" && "env" != "saveOutput"
    ensures "args" != "command" && "args" != "saveOutput" && "command" != "saveOutput"
  {
    assert "name"[0] != "args"[0];
  }

  /** A text field is found under its name, and under other names the later fields are. */
  lemma TextField(name: string, text: string, more: Members, other: string)
    requires other != name
    ensures Find(TextMember(name, text, more), other) == Find(more, other)
    ensures Find(more, name).None? ==> TextAt(TextMember(name, text, more), name) == text
  {
  }

  lemma ListField(name: string, l: seq<string>, more: Members, other: string)
    requires other != name
    ensures Find(ListMember(name, l, more), other) == Find(more, other)
    ensures Find(more, name).None? ==> ListAt(ListMember(name, l, more), name) == l
  {
    TextsBack(l);
  }

  /** What is found in the command and the flag. */
  lemma LastFields(i: OneTimeInstruction, command: string, flag: string, m: Members)
    requires command != flag && m == TextMember(command, i.command, FlagMember(flag, i.saveOutput, NoMember))
    ensures TextAt(m, command) == i.command && (Find(m, flag) == Some(Flag(true)) <==> i.saveOutput)
    ensures forall n :: n != command && n != flag ==> Find(m, n).None?
  {
    var last := FlagMember(flag, i.saveOutput, NoMember);
    forall n | n != flag ensures Find(last, n).None? {
      assert Find(NoMember, n).None?;
    }
    TextField(command, i.command, last, flag);
    forall n | n != command && n != flag ensures Find(m, n).None? {
      TextField(command, i.command, last, n);
    }
  }

  lemma ArgsFields(i: OneTimeInstruction, args: string, command: string, flag: string, m: Members)
    requires args != command && args != flag && command != flag
    requires m == ListMember(args, i.args, TextMember(command, i.command, FlagMember(flag, i.saveOutput, NoMember)))
    ensures ListAt(m, args) == i.args && TextAt(m, command) == i.command
    ensures Find(m, flag) == Some(Flag(true)) <==> i.saveOutput
    ensures forall n :: n != args && n != command && n != flag ==> Find(m, n).None?
  {
    var more := TextMember(command, i.command, FlagMember(flag, i.saveOutput, NoMember));
    LastFields(i, command, flag, more);
    ListField(args, i.args, more, command);
    ListField(args, i.args, more, flag);
  }

  /** The three fields before them. */
  lemma FirstFields(i: OneTimeInstruction, name: string, image: string, env: string, more: Members, other: string)
    requires name != image && name != env && image != env && other != name && other != image && other != env
    requires Find(more, name).None? && Find(more, image).None? && Find(more, env).None?
    ensures var m := TextMember(name, i.name, TextMember(image, i.image, ListMember(env, i.env, more)));
            && TextAt(m, name) == i.name && TextAt(m, image) == i.image && ListAt(m, env) == i.env
            && Find(m, other) == Find(more, other)
  {
    var m3 := ListMember(env, i.env, more);
    var m2 := TextMember(image, i.image, m3);
    ListField(env, i.env, more, name);
    ListField(env, i.env, more, image);
    ListField(env, i.env, more, other);
    TextField(image, i.image, m3, name);
    TextField(image, i.image, m3, env);
    TextField(image, i.image, m3, other);
    TextField(name, i.name, m2, image);
    TextField(name, i.name, m2, env);
    TextField(name, i.name, m2, other);
  }

  lemma InstructionBack(i: OneTimeInstruction)
    ensures InstructionOf(InstructionMembers(i)) == i
  {
    var last := TextMember("command", i.command, FlagMember("saveOutput", i.saveOutput, NoMember));
    var more := ListMember("args", i.args, last);
    FieldNamesDiffer();
    ArgsFields(i, "args", "command", "saveOutput", more);
    FirstFields(i, "name", "image", "env", more, "args");
    FirstFields(i, "name", "image", "env", more, "command");
    FirstFields(i, "name", "image", "env", more, "saveOutput");
  }

  lemma {:induction false} InstructionsBack(l: seq<OneTimeInstruction>)
    ensures InstructionsOf(InstructionItems(l)) == l
    decreases |l|
  {
    if l != [] {
      InstructionBack(l[0]);
      InstructionsBack(l[1..]);
    }
  }

  // ---- The text itself ---------------------------------------------------------------------------

  /** The characters Go escapes one by one, for HTML's sake and for the line separators. */
  lemma EscapesAre()
    ensures Escape('"') == ['\\', '"'] && Escape('\\') == ['\\', '\\']
    ensures Escape('\n') == ['\\', 'n'] && Escape('\r') == ['\\', 'r'] && Escape('\t') == ['\\', 't']
    ensures Escape('<') == UnicodeText('0', '0', '3', 'c') && Escape('>') == UnicodeText('0', '0', '3', 'e')
    ensures Escape('&') == UnicodeText('0', '0', '2', '6')
    ensures Escape('\U{2028}') == UnicodeText('2', '0', '2', '8')
    ensures Escape('\U{2029}') == UnicodeText('2', '0', '2', '9')
  {
  }

  function UnicodeText(a: char, b: char, c: char, d: char): string { ['\\', 'u'] + [a, b] + [c, d] }

  predicate Special(ch: char) {
    || ch == '"' || ch == '\\' || ch == '<' || ch == '>' || ch == '&'
    || ch == '\U{2028}' || ch == '\U{2029}'
  }

  /** Control characters get their code in hexadecimal; nothing else is escaped. */
  lemma OtherEscapes(ch: char)
    ensures ch < ' ' && ch != '\n' && ch != '\r' && ch != '\t' ==>
              Escape(ch) == UnicodeText('0', '0', HEX[ch as int / 16], HEX[ch as int % 16])
    ensures ' ' <= ch && !Special(ch) ==> Escape(ch) == [ch]
  {
    if ch < ' ' {
      HexDigitIs(ch as int / 16);
      HexDigitIs(ch as int % 16);
    }
  }

  predicate NoEscapes(s: string) { forall i :: 0 <= i < |s| ==> Escape(s[i]) == [s[i]] }

  lemma {:induction false} PlainText(s: string)
    requires NoEscapes(s)
    ensures EscapeAll(s) == s
  {
    if s != "" {
      PlainText(s[1..]);
      assert s == [s[0]] + s[1..];
    }
  }

  /** One member of an object behind its comma, and what follows it. */
  function Field(name: string, text: string, rest: string): string {
    "," + (['"'] + (name + (['"'] + (":" + (text + rest)))))
  }

  lemma Regroup(q: string, name: string, colon: string, text: string, rest: string)
    ensures ((q + (name + q)) + (colon + text)) + rest == q + (name + (q + (colon + (text + rest))))
  {
  }

  lemma MemberText(name: string, v: Value, more: Members)
    requires NoEscapes(name)
    ensures PrintMembers(Member(name, v, more), false) == Field(name, Print(v), PrintMembers(more, false))
    ensures "," + PrintMembers(Member(name, v, more), true) == Field(name, Print(v), PrintMembers(more, false))
  {
    PlainText(name);
    var rest := PrintMembers(more, false);
    Regroup(['"'], name, ":", Print(v), rest);
    assert "" + (PrintMember(name, v) + rest) == PrintMember(name, v) + rest;
  }

  function ListText(l: seq<string>): string { Print(Array(Texts(l))) }

  predicate Letters(s: string) { forall i :: 0 <= i < |s| ==> 'A' <= s[i] <= 'Z' || 'a' <= s[i] <= 'z' }

  lemma LettersArePlain(s: string)
    requires Letters(s)
    ensures NoEscapes(s)
  {
  }

  lemma FieldNamesAreLetters()
    ensures Letters("name") && Letters("args") && Letters("command") && Letters("saveOutput")
  {
  }

  function Last(): Members { Member("saveOutput", Flag(true), NoMember) }

  function Fourth(): Members { Member("command", Text("/bin/sh"), Last()) }

  function Third(args: seq<string>): Members { Member("args", Array(Texts(args)), Fourth()) }

  lemma MembersOfOwn(op: Op)
    requires Own(op)
    ensures InstructionMembers(Build(op)) == Member("name", Text(Name(op)), Third(Args(op)))
  {
  }

  /** The text of an instruction of the restore: no image, no environment, and the other
      four fields by their names and in their order. */
  lemma InstructionText(op: Op)
    requires Own(op)
    ensures "," + PrintMembers(InstructionMembers(Build(op)), true)
         == Field("name", Quoted(Name(op)), Field("args", ListText(Args(op)),
              Field("command", Quoted("/bin/sh"), Field("saveOutput", "true", "}"))))
  {
    MembersOfOwn(op);
    FieldNamesAreLetters();
    LettersArePlain("name");
    LettersArePlain("args");
    LettersArePlain("command");
    LettersArePlain("saveOutput");
    MemberText("saveOutput", Flag(true), NoMember);
    MemberText("command", Text("/bin/sh"), Last());
    MemberText("args", Array(Texts(Args(op))), Fourth());
    MemberText("name", Text(Name(op)), Third(Args(op)));
  }

  /** The envelope of a plan; an empty list is left out of it. */
  lemma PlanText(l: seq<OneTimeInstruction>)
    ensures l == [] ==> InstructionsAsJson(l) == "{" + "}"
    ensures l != [] ==> exists members ::
              && InstructionsAsJson(l) == "{" + members
              && "," + members == Field("instructions", Print(Array(InstructionItems(l))), "}")
  {
    if l != [] {
      assert Letters("instructions");
      LettersArePlain("instructions");
      MemberText("instructions", Array(InstructionItems(l)), NoMember);
      var members := PrintMembers(Member("instructions", Array(InstructionItems(l)), NoMember), true);
      assert InstructionsAsJson(l) == "{" + members;
    }
  }

  /** The two fields the restore leaves empty, where another plan has them. */
  lemma OptionalNames(i: OneTimeInstruction)
    requires i.name == ""
    ensures i.image != "" ==> InstructionMembers(i).Member? && InstructionMembers(i).name == "image"
    ensures i.image == "" && i.env != [] ==> InstructionMembers(i).Member? && InstructionMembers(i).name == "env"
  {
  }

  /** Decoding an encoded plan gives the plan. */
  lemma DecodeEncode(l: seq<OneTimeInstruction>)
    ensures PlanFromJson(InstructionsAsJson(l)) == Some(l)
  {
    var v := Object(if l == [] then NoMember else Member("instructions", Array(InstructionItems(l)), NoMember));
    ParsePrint(v, "");
    assert InstructionsAsJson(l) + "" == InstructionsAsJson(l);
    InstructionsBack(l);
  }

  /** `bytes.Equal` on two encoded plans compares the plans. */
  lemma SameBytesSamePlan(k: seq<OneTimeInstruction>, l: seq<OneTimeInstruction>)
    ensures InstructionsAsJson(k) == InstructionsAsJson(l) <==> k == l
  {
    DecodeEncode(k);
    DecodeEncode(l);
  }

  // ---- Checksums ---------------------------------------------------------------------------------

  predicate IsPlanApplied(sha: string -> seq<Byte>, plan: string, appliedChecksum: string) {
    HexEncode(sha(plan)) == appliedChecksum
  }

  predicate NoCollision(sha: string -> seq<Byte>, a: string, b: string) {
    sha(a) == sha(b) ==> a == b
  }

  /** With the hexadecimal checksum of one plan in the secret, whoever wrote it, another
      plan counts as applied exactly if it is the same list of instructions. */
  lemma AppliedMeansSamePlan(sha: string -> seq<Byte>, wanted: Plan, done: Plan, checksum: string)
    requires (forall op :: op in wanted ==> Own(op)) && (forall op :: op in done ==> Own(op))
    ensures var a, b := InstructionsAsJson(BuildAll(wanted)), InstructionsAsJson(BuildAll(done));
            IsHexOf(checksum, sha(b)) && NoCollision(sha, a, b) ==>
              (IsPlanApplied(sha, a, checksum) <==> wanted == done)
  {
    var a, b := InstructionsAsJson(BuildAll(wanted)), InstructionsAsJson(BuildAll(done));
    if IsHexOf(checksum, sha(b)) && NoCollision(sha, a, b) {
      HexIsUnique(checksum, sha(b));
      if HexEncode(sha(a)) == HexEncode(sha(b)) {
        HexInjective(sha(a), sha(b));
        SameBytesSamePlan(BuildAll(wanted), BuildAll(done));
        BuildAllInjective(wanted, done);
      }
    }
  }
}
