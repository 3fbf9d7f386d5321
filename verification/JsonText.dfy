/** The compact JSON text that `json.dumps` writes with `ensure_ascii=False` and separators `,` and `:`, and a reader
    that inverts it.  The grammar and the escapes are those of sections 4 to 7 of RFC 8259. */
module JsonText {
  import opened Decimals
  import opened JsonValues

  // ----- Writing --------------------------------------------------------------------------------

  function HexDigit(n: nat): char
    requires n < 16
  {
    if n < 10 then Digit(n) else ('a' as int + n - 10) as char
  }

  function Escape(c: char): string {
    if c == '"' then ['\\', '"']
    else if c == '\\' then ['\\', '\\']
    else if c == '\n' then ['\\', 'n']
    else if c == '\r' then ['\\', 'r']
    else if c == '\t' then ['\\', 't']
    else if c == '\U{8}' then ['\\', 'b']
    else if c == '\U{c}' then ['\\', 'f']
    else if c < ' ' then ['\\', 'u', '0', '0', HexDigit(c as int / 16), HexDigit(c as int % 16)]
    else [c]
  }

  function Escaped(s: string): string {
    if |s| == 0 then "" else Escape(s[0]) + Escaped(s[1..])
  }

  function PrintString(s: string): string {
    ['"'] + Escaped(s) + ['"']
  }

  function PrintInt(n: int): string {
    if n < 0 then ['-'] + Decimal(-n) else Decimal(n)
  }

  function Print(value: Json): string
    decreases value, 0
  {
    match value
    case Null => "null"
    case Bool(b) => if b then "true" else "false"
    case Int(n) => PrintInt(n)
    case Str(s) => PrintString(s)
    case Arr(items) => ['['] + PrintItems(items) + [']']
    case Obj(members) => ['{'] + PrintMembers(members) + ['}']
  }

  function PrintItems(items: seq<Json>): string
    decreases items, 0
  {
    if |items| == 0 then ""
    else Print(items[0]) + (if |items| == 1 then "" else [','] + PrintItems(items[1..]))
  }

  function PrintMember(member: Member): string
    decreases member, 0
  {
    PrintString(member.key) + [':'] + Print(member.value)
  }

  function PrintMembers(members: seq<Member>): string
    decreases members, 0
  {
    if |members| == 0 then ""
    else PrintMember(members[0]) + (if |members| == 1 then "" else [','] + PrintMembers(members[1..]))
  }

  // ----- Reading --------------------------------------------------------------------------------

  datatype Read<+T> = Read(value: T, rest: string) | Malformed

  function HexValue(c: char): Read<nat> {
    if IsDigit(c) then Read(DigitValue(c), "")
    else if 'a' <= c <= 'f' then Read(c as int - 'a' as int + 10, "")
    else if 'A' <= c <= 'F' then Read(c as int - 'A' as int + 10, "")
    else Malformed
  }

  /** The four hexadecimal digits of an escape, when they name a character by themselves. */
  function ReadHex(text: string): (r: Read<char>)
    ensures r.Read? ==> |r.rest| < |text|
  {
    if |text| < 4 then Malformed
    else
      var a, b, c, d := HexValue(text[0]), HexValue(text[1]), HexValue(text[2]), HexValue(text[3]);
      if a.Malformed? || b.Malformed? || c.Malformed? || d.Malformed? then Malformed
      else
        var code := 4096 * a.value + 256 * b.value + 16 * c.value + d.value;
        if code < 0xD800 || 0xE000 <= code < 0x10000 then Read(code as char, text[4..]) else Malformed
  }

  /** The character that follows a reverse solidus. */
  function ReadEscape(text: string): (r: Read<char>)
    ensures r.Read? ==> |r.rest| < |text|
  {
    if text == "" then Malformed
    else
      match text[0]
      case '"' => Read('"', text[1..])
      case '\\' => Read('\\', text[1..])
      case '/' => Read('/', text[1..])
      case 'b' => Read('\U{8}', text[1..])
      case 'f' => Read('\U{c}', text[1..])
      case 'n' => Read('\n', text[1..])
      case 'r' => Read('\r', text[1..])
      case 't' => Read('\t', text[1..])
      case 'u' => ReadHex(text[1..])
      case _ => Malformed
  }

  function ReadChar(text: string): (r: Read<char>)
    ensures r.Read? ==> |r.rest| < |text|
  {
    if text == "" || text[0] < ' ' then Malformed
    else if text[0] == '\\' then ReadEscape(text[1..])
    else Read(text[0], text[1..])
  }

  /** The rest of a string, after its opening quotation mark. */
  function ReadString(text: string): (r: Read<string>)
    ensures r.Read? ==> |r.rest| < |text|
  {
    if text == "" then Malformed
    else if text[0] == '"' then Read("", text[1..])
    else
      var c := ReadChar(text);
      if c.Malformed? then Malformed
      else
        var s := ReadString(c.rest);
        if s.Malformed? then Malformed else Read([c.value] + s.value, s.rest)
  }

  function LeadingDigits(text: string): (n: nat)
    ensures n <= |text|
    ensures forall i :: 0 <= i < n ==> IsDigit(text[i])
    ensures n < |text| ==> !IsDigit(text[n])
  {
    if text == "" || !IsDigit(text[0]) then 0 else 1 + LeadingDigits(text[1..])
  }

  function ReadNat(text: string): (r: Read<nat>)
    ensures r.Read? ==> |r.rest| < |text|
  {
    var n := LeadingDigits(text);
    if n == 0 then Malformed else Read(Value(text[..n]), text[n..])
  }

  function ReadInt(text: string): (r: Read<Json>)
    ensures r.Read? ==> |r.rest| < |text|
  {
    if text != "" && text[0] == '-' then
      var n := ReadNat(text[1..]);
      if n.Malformed? then Malformed else Read(Int(0 - n.value), n.rest)
    else
      var n := ReadNat(text);
      if n.Malformed? then Malformed else Read(Int(n.value), n.rest)
  }

  function ReadWord(text: string, word: string, value: Json): (r: Read<Json>)
    requires |word| > 0
    ensures r.Read? ==> |r.rest| < |text|
  {
    if word <= text then Read(value, text[|word|..]) else Malformed
  }

  function ReadValue(text: string): (r: Read<Json>)
    ensures r.Read? ==> |r.rest| < |text|
    decreases |text|, 0
  {
    if text == "" then Malformed
    else
      match text[0]
      case 'n' => ReadWord(text, "null", Null)
      case 't' => ReadWord(text, "true", Bool(true))
      case 'f' => ReadWord(text, "false", Bool(false))
      case '"' =>
        var s := ReadString(text[1..]);
        if s.Malformed? then Malformed else Read(Str(s.value), s.rest)
      case '[' =>
        if 1 < |text| && text[1] == ']' then Read(Arr([]), text[2..])
        else
          var items := ReadItems(text[1..]);
          if items.Malformed? then Malformed else Read(Arr(items.value), items.rest)
      case '{' =>
        if 1 < |text| && text[1] == '}' then Read(Obj([]), text[2..])
        else
          var members := ReadMembers(text[1..]);
          if members.Malformed? then Malformed else Read(Obj(members.value), members.rest)
      case _ => ReadInt(text)
  }

  /** One item or more, and the closing bracket. */
  function ReadItems(text: string): (r: Read<seq<Json>>)
    ensures r.Read? ==> |r.rest| < |text|
    decreases |text|, 1
  {
    var item := ReadValue(text);
    if item.Malformed? || item.rest == "" then Malformed
    else if item.rest[0] == ']' then Read([item.value], item.rest[1..])
    else if item.rest[0] == ',' then
      var more := ReadItems(item.rest[1..]);
      if more.Malformed? then Malformed else Read([item.value] + more.value, more.rest)
    else Malformed
  }

  function ReadMember(text: string): (r: Read<Member>)
    ensures r.Read? ==> |r.rest| < |text|
    decreases |text|, 1
  {
    if text == "" || text[0] != '"' then Malformed
    else
      var key := ReadString(text[1..]);
      if key.Malformed? || key.rest == "" || key.rest[0] != ':' then Malformed
      else
        var value := ReadValue(key.rest[1..]);
        if value.Malformed? then Malformed else Read(Member(key.value, value.value), value.rest)
  }

  /** One member or more, and the closing brace. */
  function ReadMembers(text: string): (r: Read<seq<Member>>)
    ensures r.Read? ==> |r.rest| < |text|
    decreases |text|, 2
  {
    var member := ReadMember(text);
    if member.Malformed? || member.rest == "" then Malformed
    else if member.rest[0] == '}' then Read([member.value], member.rest[1..])
    else if member.rest[0] == ',' then
      var more := ReadMembers(member.rest[1..]);
      if more.Malformed? then Malformed else Read([member.value] + more.value, more.rest)
    else Malformed
  }

  // ----- The reader inverts the printer ---------------------------------------------------------

  lemma HexRoundTrip(n: nat)
    requires n < 16
    ensures HexValue(HexDigit(n)) == Read(n, "")
  {
  }

  lemma CharRoundTrip(c: char, rest: string)
    ensures Escape(c)[0] != '"'
    ensures ReadChar(Escape(c) + rest) == Read(c, rest)
  {
    var text := Escape(c) + rest;
    if c == '"' || c == '\\' || c == '\n' || c == '\r' || c == '\t' || c == '\U{8}' || c == '\U{c}' {
      assert text[1..] == [Escape(c)[1]] + rest;
      assert text[1..][1..] == rest;
    } else if c < ' ' {
      HexRoundTrip(0);
      HexRoundTrip(c as int / 16);
      HexRoundTrip(c as int % 16);
      assert text[1..][1..] == ['0', '0', HexDigit(c as int / 16), HexDigit(c as int % 16)] + rest;
      assert text[1..][1..][4..] == rest;
    } else {
      assert text[1..] == rest;
    }
  }

  lemma {:induction false} StringRoundTrip(s: string, rest: string)
    ensures ReadString(Escaped(s) + ['"'] + rest) == Read(s, rest)
  {
    var text := Escaped(s) + ['"'] + rest;
    if s == "" {
      assert text[1..] == rest;
    } else {
      var tail := Escaped(s[1..]) + ['"'] + rest;
      assert text == Escape(s[0]) + tail;
      CharRoundTrip(s[0], tail);
      StringRoundTrip(s[1..], rest);
      assert s == [s[0]] + s[1..];
    }
  }

  predicate NoDigitFirst(text: string) {
    text == "" || !IsDigit(text[0])
  }

  lemma {:induction false} DigitsEnd(digits: string, rest: string)
    requires NoDigitFirst(rest) && forall i :: 0 <= i < |digits| ==> IsDigit(digits[i])
    ensures LeadingDigits(digits + rest) == |digits|
  {
    if digits == "" {
      assert digits + rest == rest;
    } else {
      DigitsEnd(digits[1..], rest);
      assert (digits + rest)[1..] == digits[1..] + rest;
    }
  }

  lemma NatRoundTrip(n: nat, rest: string)
    requires NoDigitFirst(rest)
    ensures Decimal(n) != "" && IsDigit(Decimal(n)[0])
    ensures ReadNat(Decimal(n) + rest) == Read(n, rest)
  {
    hide Decimal, LeadingDigits, Value;
    DecimalRoundTrip(n);
    DigitsEnd(Decimal(n), rest);
    var text := Decimal(n) + rest;
    assert text[..|Decimal(n)|] == Decimal(n) && text[|Decimal(n)|..] == rest;
  }

  lemma IntRoundTrip(n: int, rest: string)
    requires NoDigitFirst(rest)
    ensures var text := PrintInt(n) + rest; text != "" && (text[0] == '-' || IsDigit(text[0]))
    ensures ReadInt(PrintInt(n) + rest) == Read(Int(n), rest)
  {
    hide Decimal, LeadingDigits, Value, ReadNat;
    if n < 0 {
      NatRoundTrip(-n, rest);
      assert (PrintInt(n) + rest)[1..] == Decimal(-n) + rest;
    } else {
      NatRoundTrip(n, rest);
      assert (PrintInt(n) + rest)[0] == Decimal(n)[0];
    }
  }

  lemma WordRoundTrip(word: string, value: Json, rest: string)
    requires |word| > 0
    ensures ReadWord(word + rest, word, value) == Read(value, rest)
  {
    assert (word + rest)[|word|..] == rest;
  }

  lemma ReadIntPrinted(n: int, rest: string)
    requires NoDigitFirst(rest)
    ensures var text := PrintInt(n) + rest; text != "" && text[0] != ']' && ReadValue(text) == Read(Int(n), rest)
  {
    hide PrintInt, ReadInt, ReadString, ReadItems, ReadMembers, ReadWord;
    IntRoundTrip(n, rest);
  }

  lemma ReadStrPrinted(s: string, rest: string)
    ensures var text := PrintString(s) + rest; text != "" && text[0] != ']' && ReadValue(text) == Read(Str(s), rest)
  {
    hide Escaped, ReadInt, ReadString, ReadItems, ReadMembers, ReadWord;
    assert (PrintString(s) + rest)[1..] == Escaped(s) + ['"'] + rest;
    StringRoundTrip(s, rest);
  }

  /** A bracketed list is read by reading its items. */
  lemma ReadArrFromItems(body: string, items: seq<Json>, rest: string)
    requires if body == "" then items == [] else
      body[0] != ']' && ReadItems(body + [']'] + rest) == Read(items, rest)
    ensures ReadValue(['['] + body + [']'] + rest) == Read(Arr(items), rest)
  {
    hide ReadInt, ReadString, ReadItems, ReadMembers, ReadWord;
    var text := ['['] + body + [']'] + rest;
    if body == "" {
      assert text == ['[', ']'] + rest;
      assert text[2..] == rest;
    } else {
      assert text[1..] == body + [']'] + rest;
      assert text[1] == body[0];
    }
  }

  lemma ReadObjFromMembers(body: string, members: seq<Member>, rest: string)
    requires if body == "" then members == [] else
      body[0] != '}' && ReadMembers(body + ['}'] + rest) == Read(members, rest)
    ensures ReadValue(['{'] + body + ['}'] + rest) == Read(Obj(members), rest)
  {
    hide ReadInt, ReadString, ReadItems, ReadMembers, ReadWord;
    var text := ['{'] + body + ['}'] + rest;
    if body == "" {
      assert text == ['{', '}'] + rest;
      assert text[2..] == rest;
    } else {
      assert text[1..] == body + ['}'] + rest;
      assert text[1] == body[0];
    }
  }

  /** Reading what was printed gives the value back and stops exactly where the value ends. */
  lemma {:induction false} ReadPrinted(value: Json, rest: string)
    requires NoDigitFirst(rest)
    ensures Print(value) != "" && Print(value)[0] != ']'
    ensures ReadValue(Print(value) + rest) == Read(value, rest)
    decreases value, 0
  {
    hide ReadInt, ReadString, ReadItems, ReadMembers, PrintInt, PrintItems, PrintMembers, Escaped;
    match value {
      case Null => WordRoundTrip("null", Null, rest);
      case Bool(b) => WordRoundTrip(if b then "true" else "false", value, rest);
      case Int(n) =>
        ReadIntPrinted(n, "");
        assert PrintInt(n) + "" == PrintInt(n);
        ReadIntPrinted(n, rest);
      case Str(s) => ReadStrPrinted(s, rest);
      case Arr(items) =>
        ReadPrintedItems(items, rest);
        ReadArrFromItems(PrintItems(items), items, rest);
      case Obj(members) =>
        ReadPrintedMembers(members, rest);
        ReadObjFromMembers(PrintMembers(members), members, rest);
    }
  }

  lemma {:induction false} ReadPrintedItems(items: seq<Json>, rest: string)
    ensures if items == [] then PrintItems(items) == "" else
      && PrintItems(items) != "" && PrintItems(items)[0] != ']'
      && ReadItems(PrintItems(items) + [']'] + rest) == Read(items, rest)
    decreases items, 0
  {
    hide ReadValue, Print;
    if items != [] {
      var text := PrintItems(items) + [']'] + rest;
      var tail := (if |items| == 1 then "" else [','] + PrintItems(items[1..])) + [']'] + rest;
      assert text == Print(items[0]) + tail;
      ReadPrinted(items[0], tail);
      if |items| == 1 {
        assert tail[1..] == rest;
        assert items == [items[0]];
      } else {
        assert tail[1..] == PrintItems(items[1..]) + [']'] + rest;
        ReadPrintedItems(items[1..], rest);
        assert items == [items[0]] + items[1..];
      }
    }
  }

  lemma {:induction false} ReadPrintedMember(member: Member, rest: string)
    requires NoDigitFirst(rest)
    ensures PrintMember(member) != "" && PrintMember(member)[0] == '"'
    ensures ReadMember(PrintMember(member) + rest) == Read(member, rest)
    decreases member, 0
  {
    hide ReadValue, Print, ReadString, Escaped;
    var text := PrintMember(member) + rest;
    var tail := [':'] + Print(member.value) + rest;
    assert text[1..] == Escaped(member.key) + ['"'] + tail;
    StringRoundTrip(member.key, tail);
    assert tail[1..] == Print(member.value) + rest;
    ReadPrinted(member.value, rest);
  }

  lemma {:induction false} ReadPrintedMembers(members: seq<Member>, rest: string)
    ensures if members == [] then PrintMembers(members) == "" else
      && PrintMembers(members) != "" && PrintMembers(members)[0] == '"'
      && ReadMembers(PrintMembers(members) + ['}'] + rest) == Read(members, rest)
    decreases members, 0
  {
    hide ReadMember, PrintMember;
    if members != [] {
      var text := PrintMembers(members) + ['}'] + rest;
      var tail := (if |members| == 1 then "" else [','] + PrintMembers(members[1..])) + ['}'] + rest;
      assert text == PrintMember(members[0]) + tail;
      ReadPrintedMember(members[0], tail);
      if |members| == 1 {
        assert tail[1..] == rest;
        assert members == [members[0]];
      } else {
        assert tail[1..] == PrintMembers(members[1..]) + ['}'] + rest;
        ReadPrintedMembers(members[1..], rest);
        assert members == [members[0]] + members[1..];
      }
    }
  }

  /** Equal texts come from equal values. */
  lemma PrintInjective(v: Json, w: Json)
    requires Print(v) == Print(w)
    ensures v == w
  {
    hide Print, ReadValue;
    ReadPrinted(v, "");
    ReadPrinted(w, "");
  }
}
