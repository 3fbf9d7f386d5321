/** What the compact text looks like, character by character, and that no shorter text reads as the value. */
module JsonShape {
  import opened Decimals
  import opened JsonText
  import opened JsonValues

  // ----- Words and numbers ----------------------------------------------------------------------

  lemma WordsPrint()
    ensures Print(Null) == "null" && Print(Bool(true)) == "true" && Print(Bool(false)) == "false"
  {
  }

  /** An integer is written in decimal digits, with a sign only when it is negative. */
  lemma IntPrints(n: int)
    ensures 0 <= n < 10 ==> Print(Int(n)) == ["0123456789"[n]]
    ensures 10 <= n ==> Print(Int(n)) == Print(Int(n / 10)) + ["0123456789"[n % 10]]
    ensures n < 0 ==> Print(Int(n)) == "-" + Print(Int(-n))
  {
  }

  /** No integer but zero starts with a zero. */
  lemma {:induction false} NoLeadingZero(n: nat)
    requires n > 0
    ensures Print(Int(n)) != "" && Print(Int(n))[0] != '0'
    decreases n
  {
    IntPrints(n);
    if n >= 10 {
      NoLeadingZero(n / 10);
    }
  }

  // ----- Strings --------------------------------------------------------------------------------

  /** What stands between the quotation marks. */
  function Inside(s: string): string {
    var text := Print(Str(s));
    if |text| < 2 then "" else text[1..|text| - 1]
  }

  /** A string is written between quotation marks, one character after the other. */
  lemma {:induction false} StringPrints(s: string, t: string)
    ensures Print(Str(s)) == "\"" + Inside(s) + "\""
    ensures Inside("") == "" && Inside(s + t) == Inside(s) + Inside(t)
  {
    EscapedConcat(s, t);
  }

  lemma {:induction false} EscapedConcat(s: string, t: string)
    ensures Escaped(s + t) == Escaped(s) + Escaped(t)
  {
    hide Escape;
    if s == "" {
      assert s + t == t;
    } else {
      EscapedConcat(s[1..], t);
      assert (s + t)[1..] == s[1..] + t;
      assert Escaped(s + t) == Escape(s[0]) + Escaped(s[1..] + t);
    }
  }

  /** Seven characters are escaped by a letter or by themselves, the other control characters by their two lower-case
      hexadecimal digits, and no other character is escaped. */
  lemma CharacterPrints(c: char)
    ensures c == '"' ==> Inside([c]) == "\\\""
    ensures c == '\\' ==> Inside([c]) == "\\\\"
    ensures c == '\n' ==> Inside([c]) == "\\n"
    ensures c == '\r' ==> Inside([c]) == "\\r"
    ensures c == '\t' ==> Inside([c]) == "\\t"
    ensures c == '\U{8}' ==> Inside([c]) == "\\b"
    ensures c == '\U{c}' ==> Inside([c]) == "\\f"
    ensures c < ' ' && c != '\n' && c != '\r' && c != '\t' && c != '\U{8}' && c != '\U{c}' ==>
      Inside([c]) == "\\u00" + ["0123456789abcdef"[c as int / 16], "0123456789abcdef"[c as int % 16]]
    ensures c >= ' ' && c != '"' && c != '\\' ==> Inside([c]) == [c]
  {
    InsideOne(c);
    hide Inside;
  }

  lemma InsideOne(c: char)
    ensures Inside([c]) == Escape(c)
  {
    hide Escape;
    assert Escaped([c]) == Escape(c) + Escaped("");
  }

  predicate Plain(c: char) {
    c >= ' ' && c != '"' && c != '\\'
  }

  /** A string of plain characters is written as it is. */
  lemma {:induction false} PlainStringPrints(s: string)
    requires forall i :: 0 <= i < |s| ==> Plain(s[i])
    ensures Print(Str(s)) == "\"" + s + "\""
  {
    StringPrints(s, "");
    if s != "" {
      PlainStringPrints(s[1..]);
      StringPrints([s[0]], s[1..]);
      CharacterPrints(s[0]);
      assert s == [s[0]] + s[1..];
    }
  }

  // ----- Arrays and objects ---------------------------------------------------------------------

  /** Items stand between brackets, with a lone comma between two of them. */
  lemma ArrayPrints(items: seq<Json>)
    ensures Print(Arr([])) == "[]"
    ensures |items| == 1 ==> Print(Arr(items)) == "[" + Print(items[0]) + "]"
    ensures |items| > 1 ==> Print(Arr(items)) == "[" + Print(items[0]) + "," + Print(Arr(items[1..]))[1..]
  {
  }

  /** Members stand between braces, with a lone comma between two of them and a lone colon after each key. */
  lemma ObjectPrints(members: seq<Member>)
    ensures Print(Obj([])) == "{}"
    ensures |members| == 1 ==>
      Print(Obj(members)) == "{" + Print(Str(members[0].key)) + ":" + Print(members[0].value) + "}"
    ensures |members| > 1 ==>
      Print(Obj(members)) == "{" + Print(Str(members[0].key)) + ":" + Print(members[0].value) + ","
                             + Print(Obj(members[1..]))[1..]
  {
    hide PrintString;
    if |members| > 0 {
      assert Print(Str(members[0].key)) == PrintString(members[0].key);
      assert PrintMember(members[0]) == Print(Str(members[0].key)) + ":" + Print(members[0].value);
    }
    if |members| > 1 {
      assert Print(Obj(members[1..]))[1..] == PrintMembers(members[1..]) + ['}'];
      assert Print(Obj(members)) == ['{'] + (PrintMember(members[0]) + ([','] + PrintMembers(members[1..]))) + ['}'];
    }
  }

  // ----- No shorter text ------------------------------------------------------------------------

  lemma {:induction false} DecimalIsShortest(digits: string)
    requires |digits| > 0 && forall i :: 0 <= i < |digits| ==> IsDigit(digits[i])
    ensures |Decimal(Value(digits))| <= |digits|
  {
    var n := |digits| - 1;
    if n > 0 {
      DecimalIsShortest(digits[..n]);
      assert Value(digits) / 10 == Value(digits[..n]);
    } else {
      assert Value(digits[..0]) == 0;
    }
  }

  lemma ReadNatShortest(text: string)
    requires ReadNat(text).Read?
    ensures |Decimal(ReadNat(text).value)| + |ReadNat(text).rest| <= |text|
  {
    DecimalIsShortest(text[..LeadingDigits(text)]);
  }

  lemma ReadIntShortest(text: string)
    requires ReadInt(text).Read?
    ensures |Print(ReadInt(text).value)| + |ReadInt(text).rest| <= |text|
  {
    hide Decimal, ReadNat;
    if text != "" && text[0] == '-' { ReadNatShortest(text[1..]); } else { ReadNatShortest(text); }
    ZeroIsShort();
  }

  lemma ZeroIsShort()
    ensures Decimal(0) == "0"
  {
  }

  lemma ReadCharShortest(text: string)
    requires ReadChar(text).Read? && text[0] != '"'
    ensures |Escape(ReadChar(text).value)| + |ReadChar(text).rest| <= |text|
  {
  }

  lemma {:induction false} ReadStringShortest(text: string)
    requires ReadString(text).Read?
    ensures |Escaped(ReadString(text).value)| + 1 + |ReadString(text).rest| <= |text|
    decreases |text|
  {
    hide ReadChar, Escape;
    if text[0] != '"' {
      var c := ReadChar(text);
      ReadCharShortest(text);
      ReadStringShortest(c.rest);
      EscapedConcat([c.value], ReadString(c.rest).value);
      assert Escaped([c.value]) == Escape(c.value) + Escaped("");
    }
  }

  /** No text that is shorter reads as the value: the printed one has no spare escape, digit or space. */
  lemma {:induction false} PrintIsShortest(text: string)
    requires ReadValue(text).Read?
    ensures |Print(ReadValue(text).value)| + |ReadValue(text).rest| <= |text|
    decreases |text|, 0
  {
    hide ReadInt, ReadString, ReadItems, ReadMembers, PrintInt, PrintItems, PrintMembers, Escaped;
    match text[0] {
      case 'n' =>
      case 't' =>
      case 'f' =>
      case '"' => ReadStringShortest(text[1..]);
      case '[' =>
        if !(1 < |text| && text[1] == ']') { ItemsShortest(text[1..]); }
        ArrayPrints([]);
      case '{' =>
        if !(1 < |text| && text[1] == '}') { MembersShortest(text[1..]); }
        ObjectPrints([]);
      case _ => ReadIntShortest(text);
    }
  }

  lemma {:induction false} ItemsShortest(text: string)
    requires ReadItems(text).Read?
    ensures |PrintItems(ReadItems(text).value)| + 1 + |ReadItems(text).rest| <= |text|
    decreases |text|, 1
  {
    hide ReadValue, Print;
    var item := ReadValue(text);
    PrintIsShortest(text);
    if item.rest[0] == ',' {
      var more := ReadItems(item.rest[1..]).value;
      ItemsShortest(item.rest[1..]);
      assert ([item.value] + more)[1..] == more;
    }
  }

  lemma {:induction false} MemberShortest(text: string)
    requires ReadMember(text).Read?
    ensures |PrintMember(ReadMember(text).value)| + |ReadMember(text).rest| <= |text|
    decreases |text|, 1
  {
    hide ReadValue, Print, Escaped, ReadString;
    var key := ReadString(text[1..]);
    ReadStringShortest(text[1..]);
    PrintIsShortest(key.rest[1..]);
  }

  lemma {:induction false} MembersShortest(text: string)
    requires ReadMembers(text).Read?
    ensures |PrintMembers(ReadMembers(text).value)| + 1 + |ReadMembers(text).rest| <= |text|
    decreases |text|, 2
  {
    hide ReadMember, PrintMember;
    var member := ReadMember(text);
    MemberShortest(text);
    if member.rest[0] == ',' {
      var more := ReadMembers(member.rest[1..]).value;
      MembersShortest(member.rest[1..]);
      assert ([member.value] + more)[1..] == more;
    }
  }
}
