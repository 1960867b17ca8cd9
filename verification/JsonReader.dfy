/**
 A reader of JSON texts, after the grammar of RFC 8259 for values without spaces between
 tokens and numbers without fraction or exponent: what `json.loads` makes of a stored text.
 */
module JsonReader {
  import opened Prelude
  import opened Json

  /** What was read off the front of a text, and the rest. */
  type Reading<T> = Option<(T, string)>

  function HexValue(c: char): (r: Option<int>)
    ensures r.Some? ==> 0 <= r.value < 16
  {
    if '0' <= c <= '9' then Some(c as int - '0' as int)
    else if 'a' <= c <= 'f' then Some(c as int - 'a' as int + 10)
    else if 'A' <= c <= 'F' then Some(c as int - 'A' as int + 10)
    else None
  }

  /** The character after a backslash that stands for one character, section 7 of RFC 8259. */
  function Unescaped(c: char): Option<char> {
    if c == '\"' || c == '\\' || c == '/' then Some(c)
    else if c == 'b' then Some(8 as char)
    else if c == 'f' then Some(12 as char)
    else if c == 'n' then Some('\n')
    else if c == 'r' then Some('\r')
    else if c == 't' then Some('\t')
    else None
  }

  /** The character of a code unit; halves of surrogate pairs are no characters here. */
  function CharOf(n: int): Option<char> {
    if 0 <= n < 0xD800 || 0xE000 <= n < 0x10000 then Some(n as char) else None
  }

  /** Four hexadecimal digits. */
  function ReadHex(s: string): (r: Reading<char>)
    ensures r.Some? ==> |r.value.1| < |s|
  {
    if |s| < 4 then None
    else
      var a, b, c, d := HexValue(s[0]), HexValue(s[1]), HexValue(s[2]), HexValue(s[3]);
      if a.None? || b.None? || c.None? || d.None? then None
      else
        match CharOf(4096 * a.value + 256 * b.value + 16 * c.value + d.value)
        case None => None
        case Some(x) => Some((x, s[4..]))
  }

  /** One character of a string literal; control characters have to be escaped. */
  function ReadChar(s: string): (r: Reading<char>)
    ensures r.Some? ==> |r.value.1| < |s|
  {
    if s == [] || s[0] < 0x20 as char then None
    else if s[0] != '\\' then Some((s[0], s[1..]))
    else if |s| < 2 then None
    else if s[1] == 'u' then ReadHex(s[2..])
    else
      match Unescaped(s[1])
      case None => None
      case Some(c) => Some((c, s[2..]))
  }

  /** The rest of a string literal, through its closing quote. */
  function ReadText(s: string): (r: Reading<string>)
    ensures r.Some? ==> |r.value.1| < |s|
    decreases |s|
  {
    if s != [] && s[0] == '\"' then Some(("", s[1..]))
    else
      match ReadChar(s)
      case None => None
      case Some((c, rest)) =>
        match ReadText(rest)
        case None => None
        case Some((text, rest')) => Some(([c] + text, rest'))
  }

  predicate IsDigit(c: char) {
    '0' <= c <= '9'
  }

  /** How many digits the text starts with. */
  function Span(s: string): (n: nat)
    ensures n <= |s| && forall i :: 0 <= i < n ==> IsDigit(s[i])
  {
    if s != [] && IsDigit(s[0]) then 1 + Span(s[1..]) else 0
  }

  function NatOf(digits: string): nat
    requires forall i :: 0 <= i < |digits| ==> IsDigit(digits[i])
  {
    if digits == [] then 0
    else
      var last := digits[|digits| - 1];
      assert IsDigit(last);
      NatOf(digits[..|digits| - 1]) * 10 + (last as int - '0' as int)
  }

  /** An integer without leading zeros. */
  function ReadNat(s: string): (r: Reading<nat>)
    ensures r.Some? ==> |r.value.1| < |s|
  {
    var n := Span(s);
    if n == 0 || (n > 1 && s[0] == '0') then None else Some((NatOf(s[..n]), s[n..]))
  }

  function ReadNumber(s: string): (r: Reading<Json>)
    ensures r.Some? ==> |r.value.1| < |s|
  {
    var negative := s != [] && s[0] == '-';
    match ReadNat(if negative then s[1..] else s)
    case None => None
    case Some((n, rest)) => Some((Num(if negative then 0 - n else n), rest))
  }

  function ReadWord(s: string, word: string, j: Json): (r: Reading<Json>)
    requires word != []
    ensures r.Some? ==> |r.value.1| < |s|
  {
    if word <= s then Some((j, s[|word|..])) else None
  }

  function ReadValue(s: string): (r: Reading<Json>)
    ensures r.Some? ==> |r.value.1| < |s|
    decreases |s|, 0
  {
    if s == [] then None
    else if s[0] == 'n' then ReadWord(s, "null", Null)
    else if s[0] == 't' then ReadWord(s, "true", Bool(true))
    else if s[0] == 'f' then ReadWord(s, "false", Bool(false))
    else if s[0] == '\"' then
      match ReadText(s[1..])
      case None => None
      case Some((text, rest)) => Some((Str(text), rest))
    else if s[0] == '[' then ReadArr(s[1..])
    else if s[0] == '{' then ReadObj(s[1..])
    else ReadNumber(s)
  }

  /** An array, after its opening bracket. */
  function ReadArr(s: string): (r: Reading<Json>)
    ensures r.Some? ==> |r.value.1| < |s|
    decreases |s|, 2
  {
    if s != [] && s[0] == ']' then Some((Arr([]), s[1..]))
    else
      match ReadValue(s)
      case None => None
      case Some((j, rest)) =>
        match ReadItems(rest)
        case None => None
        case Some((js, rest')) => Some((Arr([j] + js), rest'))
  }

  /** The items after the first one. */
  function ReadItems(s: string): (r: Reading<seq<Json>>)
    ensures r.Some? ==> |r.value.1| < |s|
    decreases |s|, 1
  {
    if s == [] then None
    else if s[0] == ']' then Some(([], s[1..]))
    else if s[0] != ',' then None
    else
      match ReadValue(s[1..])
      case None => None
      case Some((j, rest)) =>
        match ReadItems(rest)
        case None => None
        case Some((js, rest')) => Some(([j] + js, rest'))
  }

  /** An object, after its opening brace. */
  function ReadObj(s: string): (r: Reading<Json>)
    ensures r.Some? ==> |r.value.1| < |s|
    decreases |s|, 2
  {
    if s != [] && s[0] == '}' then Some((Obj([]), s[1..]))
    else
      match ReadField(s)
      case None => None
      case Some((f, rest)) =>
        match ReadFields(rest)
        case None => None
        case Some((fs, rest')) => Some((Obj([f] + fs), rest'))
  }

  function ReadField(s: string): (r: Reading<Field>)
    ensures r.Some? ==> |r.value.1| < |s|
    decreases |s|, 1
  {
    if s == [] || s[0] != '\"' then None
    else
      match ReadText(s[1..])
      case None => None
      case Some((name, rest)) =>
        if rest == [] || rest[0] != ':' then None
        else
          match ReadValue(rest[1..])
          case None => None
          case Some((j, rest')) => Some((Field(name, j), rest'))
  }

  function ReadFields(s: string): (r: Reading<seq<Field>>)
    ensures r.Some? ==> |r.value.1| < |s|
    decreases |s|, 1
  {
    if s == [] then None
    else if s[0] == '}' then Some(([], s[1..]))
    else if s[0] != ',' then None
    else
      match ReadField(s[1..])
      case None => None
      case Some((f, rest)) =>
        match ReadFields(rest)
        case None => None
        case Some((fs, rest')) => Some(([f] + fs, rest'))
  }

  // ---- what is written is read back ---------------------------------------------------------

  lemma HexBack(d: int)
    requires 0 <= d < 16
    ensures HexValue(Hex(d)) == Some(d)
  {
  }

  lemma CharBack(c: char, k: string)
    ensures ReadChar(Escape(c) + k) == Some((c, k)) && (Escape(c) + k)[0] != '\"'
  {
    var s := Escape(c) + k;
    assert s[0] == Escape(c)[0] && s[|Escape(c)|..] == k;
    if |Escape(c)| == 2 {
      assert s[1] == Escape(c)[1];
    } else if |Escape(c)| == 6 {
      HexBack(c as int / 16);
      HexBack(c as int % 16);
      var t := s[2..];
      assert s[1] == 'u' && t[0] == '0' && t[1] == '0';
      assert t[2] == Hex(c as int / 16) && t[3] == Hex(c as int % 16) && t[4..] == k;
    }
  }

  lemma {:induction false} TextBack(text: string, k: string)
    ensures ReadText(Escaped(text, k)) == Some((text, k))
  {
    hide ReadChar, Escape;
    if text == [] {
      assert Escaped(text, k)[0] == '\"' && Escaped(text, k)[1..] == k;
    } else {
      CharBack(text[0], Escaped(text[1..], k));
      TextBack(text[1..], k);
      assert text == [text[0]] + text[1..];
    }
  }

  lemma {:induction false} DigitsValue(n: nat)
    ensures NatOf(Digits(n)) == n && (|Digits(n)| > 1 ==> Digits(n)[0] != '0')
  {
    if n >= 10 {
      DigitsValue(n / 10);
      var ds := Digits(n);
      assert ds[..|ds| - 1] == Digits(n / 10);
      if |Digits(n / 10)| == 1 { assert Digits(n / 10) == ["0123456789"[n / 10]]; }
    } else {
      assert Digits(n)[..0] == [];
    }
  }

  lemma {:induction false} SpanOf(digits: string, k: string)
    requires forall i :: 0 <= i < |digits| ==> IsDigit(digits[i])
    requires k == [] || !IsDigit(k[0])
    ensures Span(digits + k) == |digits|
  {
    if digits == [] {
      assert digits + k == k;
    } else {
      assert (digits + k)[1..] == digits[1..] + k;
      SpanOf(digits[1..], k);
    }
  }

  lemma NatBack(n: nat, k: string)
    requires Stop(k)
    ensures ReadNat(Digits(n) + k) == Some((n, k))
  {
    var s := Digits(n) + k;
    SpanOf(Digits(n), k);
    DigitsValue(n);
    assert s[..|Digits(n)|] == Digits(n) && s[|Digits(n)|..] == k && s[0] == Digits(n)[0];
  }

  lemma NumberBack(n: int, k: string)
    requires Stop(k)
    ensures ReadNumber(Number(n, k)) == Some((Num(n), k))
  {
    hide ReadNat, Digits, Stop;
    var s := Number(n, k);
    if n < 0 {
      NatBack(-n, k);
      assert s[0] == '-' && s[1..] == Digits(-n) + k;
    } else {
      NatBack(n, k);
      assert s[0] == Digits(n)[0] != '-';
    }
  }

  /** A written value is read back, whatever follows it. */
  lemma {:induction false} ReadBack(j: Json, k: string)
    requires Stop(k)
    ensures ReadValue(Write(j, k)) == Some((j, k))
    decreases j, 1
  {
    hide ReadText, ReadNumber, ReadArr, ReadObj;
    FirstChar(j, k);
    var s := Write(j, k);
    match j
    case Null => assert "null" <= s && s[4..] == k;
    case Bool(b) => var w := if b then "true" else "false"; assert w <= s && s[|w|..] == k;
    case Num(n) => NumberBack(n, k);
    case Str(text) => TextBack(text, k); assert s[1..] == Escaped(text, k);
    case Arr(items) => ArrBack(items, k);
    case Obj(fields) => ObjBack(fields, k);
  }

  lemma {:induction false} ArrBack(items: seq<Json>, k: string)
    requires Stop(k)
    ensures Write(Arr(items), k) != [] && ReadArr(Write(Arr(items), k)[1..]) == Some((Arr(items), k))
    decreases items, 1
  {
    hide ReadValue;
    var s := Write(Arr(items), k)[1..];
    if items == [] {
      assert s == "]" + k && s[1..] == k;
    } else {
      var rest := WriteItems(items[1..], k);
      assert s == Write(items[0], rest);
      ReadBack(items[0], rest);
      FirstChar(items[0], rest);
      ItemsBack(items[1..], k);
      assert items == [items[0]] + items[1..];
    }
  }

  lemma {:induction false} ItemsBack(items: seq<Json>, k: string)
    requires Stop(k)
    ensures ReadItems(WriteItems(items, k)) == Some((items, k))
    decreases items, 0
  {
    hide ReadValue;
    var s := WriteItems(items, k);
    if items == [] {
      assert s[1..] == k;
    } else {
      var rest := WriteItems(items[1..], k);
      assert s[1..] == Write(items[0], rest);
      ReadBack(items[0], rest);
      ItemsBack(items[1..], k);
      assert items == [items[0]] + items[1..];
    }
  }

  lemma {:induction false} ObjBack(fields: seq<Field>, k: string)
    requires Stop(k)
    ensures Write(Obj(fields), k) != [] && ReadObj(Write(Obj(fields), k)[1..]) == Some((Obj(fields), k))
    decreases fields, 1
  {
    hide ReadField;
    var s := Write(Obj(fields), k)[1..];
    if fields == [] {
      assert s == "}" + k && s[1..] == k;
    } else {
      var rest := WriteFields(fields[1..], k);
      assert s == WriteField(fields[0], rest);
      assert s[0] == '\"';
      FieldBack(fields[0], rest);
      FieldsBack(fields[1..], k);
      assert fields == [fields[0]] + fields[1..];
    }
  }

  lemma {:induction false} FieldBack(f: Field, k: string)
    requires Stop(k)
    ensures ReadField(WriteField(f, k)) == Some((f, k))
    decreases f, 0
  {
    hide ReadValue, ReadText;
    var value := ":" + Write(f.value, k);
    assert WriteField(f, k)[1..] == Escaped(f.name, value);
    TextBack(f.name, value);
    assert value[1..] == Write(f.value, k);
    ReadBack(f.value, k);
  }

  lemma {:induction false} FieldsBack(fields: seq<Field>, k: string)
    requires Stop(k)
    ensures ReadFields(WriteFields(fields, k)) == Some((fields, k))
    decreases fields, 0
  {
    hide ReadField;
    var s := WriteFields(fields, k);
    if fields == [] {
      assert s[1..] == k;
    } else {
      var rest := WriteFields(fields[1..], k);
      assert s[1..] == WriteField(fields[0], rest);
      FieldBack(fields[0], rest);
      FieldsBack(fields[1..], k);
      assert fields == [fields[0]] + fields[1..];
    }
  }

  // ---- canonical texts ------------------------------------------------------------------------

  /** In every object of the tree the keys increase. */
  ghost predicate InKeyOrder(j: Json) {
    match j
    case Arr(items) => forall i :: 0 <= i < |items| ==> InKeyOrder(items[i])
    case Obj(fields) => Ascending(fields) && forall i :: 0 <= i < |fields| ==> InKeyOrder(fields[i].value)
    case _ => true
  }

  lemma {:induction false} NormSame(j: Json)
    ensures Same(j, Norm(j))
    decreases j
  {
    match j
    case Arr(items) => forall i | 0 <= i < |items| ensures Same(items[i], NormItems(items)[i]) { NormSame(items[i]); }
    case Obj(fields) =>
      var ns := NormFields(fields);
      SortKeeps(ns);
      forall i | 0 <= i < |fields|
        ensures exists k :: 0 <= k < |Sort(ns)| && fields[i].name == Sort(ns)[k].name
                  && Same(fields[i].value, Sort(ns)[k].value)
      {
        NormSame(fields[i].value);
        assert ns[i] in Sort(ns);
        var k :| 0 <= k < |Sort(ns)| && Sort(ns)[k] == ns[i];
      }
    case _ =>
  }

  lemma {:induction false} NormInOrder(j: Json)
    requires IsJson(j)
    ensures InKeyOrder(Norm(j))
    decreases j
  {
    match j
    case Arr(items) => forall i | 0 <= i < |items| ensures InKeyOrder(NormItems(items)[i]) { NormInOrder(items[i]); }
    case Obj(fields) =>
      var ns := NormFields(fields);
      SortKeeps(ns);
      SortAscending(ns);
      forall f | f in ns ensures InKeyOrder(f.value) {
        var i :| 0 <= i < |ns| && ns[i] == f;
        NormInOrder(fields[i].value);
      }
      forall k | 0 <= k < |Sort(ns)| ensures InKeyOrder(Sort(ns)[k].value) { assert Sort(ns)[k] in ns; }
    case _ =>
  }

  /** A canonical text is read back whole, as a value equal to the one written, with every object's keys in order. */
  lemma CanonicalReads(j: Json)
    ensures ReadValue(Canonical(j)).Some?
    ensures var (back, rest) := ReadValue(Canonical(j)).value;
      rest == "" && Same(j, back) && (IsJson(j) ==> InKeyOrder(back))
  {
    ReadBack(Norm(j), "");
    hide ReadValue, Write, Norm, IsJson, InKeyOrder, Same;
    NormSame(j);
    if IsJson(j) { NormInOrder(j); }
  }
}
