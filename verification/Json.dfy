/**
 The canonical JSON text of `crypto.py`: `json.dumps` with sorted keys, compact
 separators and `ensure_ascii=False`, on trees without floats.
 */
module Json {
  import opened Prelude

  datatype Json =
    | Null
    | Bool(b: bool)
    | Num(n: int)
    | Str(s: string)
    | Arr(items: seq<Json>)
    | Obj(fields: seq<Field>)

  /** One `key: value` entry of a dict; `Obj` keeps entries in insertion order. */
  datatype Field = Field(name: string, value: Json)

  // ---- writing: each function puts its text in front of the text `k` that follows ------

  function Hex(d: int): char
    requires 0 <= d < 16
  {
    "0123456789abcdef"[d]
  }

  function Escape(c: char): string {
    if c == '\"' then "\\\""
    else if c == '\\' then "\\\\"
    else if c == '\n' then "\\n"
    else if c == '\r' then "\\r"
    else if c == '\t' then "\\t"
    else if c == 12 as char then "\\f"
    else if c == 8 as char then "\\b"
    else if c as int < 0x20 then "\\u00" + [Hex(c as int / 16), Hex(c as int % 16)]
    else [c]
  }

  /** The rest of a string literal, with its closing quote. */
  function Escaped(s: string, k: string): string {
    if s == [] then "\"" + k else Escape(s[0]) + Escaped(s[1..], k)
  }

  function Quoted(s: string, k: string): string {
    "\"" + Escaped(s, k)
  }

  function Digits(n: nat): (r: string)
    ensures |r| > 0 && forall i :: 0 <= i < |r| ==> '0' <= r[i] <= '9'
  {
    if n < 10 then ["0123456789"[n]] else Digits(n / 10) + ["0123456789"[n % 10]]
  }

  function Number(n: int, k: string): string {
    if n < 0 then "-" + (Digits(-n) + k) else Digits(n) + k
  }

  /** `str(n)` of a Python int. */
  function Dec(n: int): string {
    if n < 0 then "-" + Digits(-n) else Digits(n)
  }

  /** A tree whose objects are written in the order they are stored. */
  function Write(j: Json, k: string): string
    decreases j, 1
  {
    match j
    case Null => "null" + k
    case Bool(b) => (if b then "true" else "false") + k
    case Num(n) => Number(n, k)
    case Str(s) => Quoted(s, k)
    case Arr(items) => "[" + if items == [] then "]" + k else Write(items[0], WriteItems(items[1..], k))
    case Obj(fields) => "{" + if fields == [] then "}" + k else WriteField(fields[0], WriteFields(fields[1..], k))
  }

  /** The items after the first one, with the closing bracket. */
  function WriteItems(items: seq<Json>, k: string): string
    decreases items, 0
  {
    if items == [] then "]" + k else "," + Write(items[0], WriteItems(items[1..], k))
  }

  function WriteField(f: Field, k: string): string
    decreases f, 0
  {
    Quoted(f.name, ":" + Write(f.value, k))
  }

  function WriteFields(fields: seq<Field>, k: string): string
    decreases fields, 0
  {
    if fields == [] then "}" + k else "," + WriteField(fields[0], WriteFields(fields[1..], k))
  }

  /** Python's `<` on str: code points, left to right. */
  predicate Less(a: string, b: string) {
    b != [] && (a == [] || a[0] < b[0] || (a[0] == b[0] && Less(a[1..], b[1..])))
  }

  function Insert(f: Field, fs: seq<Field>): seq<Field> {
    if fs == [] || !Less(fs[0].name, f.name) then [f] + fs else [fs[0]] + Insert(f, fs[1..])
  }

  /** `sorted` by key: the sort_keys option of `json.dumps`. */
  function Sort(fs: seq<Field>): seq<Field> {
    if fs == [] then [] else Insert(fs[0], Sort(fs[1..]))
  }

  /** The tree with every object's entries sorted by key. */
  function Norm(j: Json): Json
    decreases j, 1
  {
    match j
    case Arr(items) => Arr(NormItems(items))
    case Obj(fields) => Obj(Sort(NormFields(fields)))
    case _ => j
  }

  function NormItems(items: seq<Json>): (r: seq<Json>)
    ensures |r| == |items| && forall i :: 0 <= i < |items| ==> r[i] == Norm(items[i])
    decreases items, 0
  {
    if items == [] then [] else [Norm(items[0])] + NormItems(items[1..])
  }

  function NormFields(fields: seq<Field>): (r: seq<Field>)
    ensures |r| == |fields|
    ensures forall i :: 0 <= i < |fields| ==> r[i] == Field(fields[i].name, Norm(fields[i].value))
    decreases fields, 0
  {
    if fields == [] then [] else [Field(fields[0].name, Norm(fields[0].value))] + NormFields(fields[1..])
  }

  /** `crypto.canonical`. */
  function Canonical(j: Json): string {
    Write(Norm(j), "")
  }

  // ---- a written text can be read back in one way only --------------------------

  lemma Cancel(a: string, b: string, s: string, t: string)
    requires a + s == b + t && |a| == |b|
    ensures a == b && s == t
  {
    assert a == (a + s)[..|a|] && b == (b + t)[..|a|];
    assert s == (a + s)[|a|..] && t == (b + t)[|a|..];
  }

  lemma EscapeLength(c: char, d: char, s: string, t: string)
    requires Escape(c) + s == Escape(d) + t
    ensures |Escape(c)| == |Escape(d)|
  {
    var x, y := Escape(c) + s, Escape(d) + t;
    assert x[0] == Escape(c)[0] && y[0] == Escape(d)[0];
    assert |Escape(c)| > 1 ==> x[1] == Escape(c)[1];
    assert |Escape(d)| > 1 ==> y[1] == Escape(d)[1];
  }

  lemma EscapeSplits(c: char, d: char, s: string, t: string)
    requires Escape(c) + s == Escape(d) + t
    ensures c == d && s == t
  {
    EscapeLength(c, d, s, t);
    Cancel(Escape(c), Escape(d), s, t);
    EscapeInjective(c, d);
  }

  lemma HexPair(m: int, n: int)
    requires 0 <= m < 0x20 && 0 <= n < 0x20
    requires Hex(m / 16) == Hex(n / 16) && Hex(m % 16) == Hex(n % 16)
    ensures m == n
  {
  }

  lemma EscapeInjective(c: char, d: char)
    requires Escape(c) == Escape(d)
    ensures c == d
  {
    var x, y := Escape(c), Escape(d);
    assert x[0] == y[0];
    if |x| == 6 {
      assert x[4] == y[4] && x[5] == y[5];
      HexPair(c as int, d as int);
    } else if |x| == 2 {
      assert x[1] == y[1];
    }
  }

  lemma {:induction false} EscapedSplits(a: string, b: string, s: string, t: string)
    requires Escaped(a, s) == Escaped(b, t)
    ensures a == b && s == t
  {
    var x, y := Escaped(a, s), Escaped(b, t);
    assert a != [] ==> x[0] == Escape(a[0])[0] != '\"';
    assert b != [] ==> y[0] == Escape(b[0])[0] != '\"';
    if a == [] {
      Cancel("\"", "\"", s, t);
    } else {
      EscapeSplits(a[0], b[0], Escaped(a[1..], s), Escaped(b[1..], t));
      EscapedSplits(a[1..], b[1..], s, t);
      assert a == [a[0]] + a[1..] && b == [b[0]] + b[1..];
    }
  }

  lemma QuotedSplits(a: string, b: string, s: string, t: string)
    requires Quoted(a, s) == Quoted(b, t)
    ensures a == b && s == t
  {
    Cancel("\"", "\"", Escaped(a, s), Escaped(b, t));
    EscapedSplits(a, b, s, t);
  }

  lemma DigitsLength(n: nat)
    ensures |Digits(n)| == 1 <==> n < 10
  {
  }

  lemma {:induction false} DigitsInjective(m: nat, n: nat)
    requires Digits(m) == Digits(n)
    ensures m == n
  {
    DigitsLength(m);
    DigitsLength(n);
    if m >= 10 {
      Cancel(Digits(m / 10), Digits(n / 10), ["0123456789"[m % 10]], ["0123456789"[n % 10]]);
      DigitsInjective(m / 10, n / 10);
    }
  }

  /** What may follow a value inside a larger text. */
  predicate Stop(s: string) {
    s == [] || s[0] == ',' || s[0] == ']' || s[0] == '}'
  }

  /** Digits before a stop run exactly to the stop. */
  lemma DigitsEnd(m: nat, n: nat, s: string, t: string)
    requires Stop(s) && Digits(m) + s == Digits(n) + t
    ensures |Digits(n)| <= |Digits(m)|
  {
    var a, b, x := Digits(m), Digits(n), Digits(m) + s;
    assert |a| < |x| ==> x[|a|] == s[0];
  }

  lemma DigitsSplit(m: nat, n: nat, s: string, t: string)
    requires Stop(s) && Stop(t) && Digits(m) + s == Digits(n) + t
    ensures m == n && s == t
  {
    DigitsEnd(m, n, s, t);
    DigitsEnd(n, m, t, s);
    Cancel(Digits(m), Digits(n), s, t);
    DigitsInjective(m, n);
  }

  lemma NumberSplits(m: int, n: int, s: string, t: string)
    requires Stop(s) && Stop(t) && Number(m, s) == Number(n, t)
    ensures m == n && s == t
  {
    assert Number(m, s)[0] == if m < 0 then '-' else Digits(m)[0];
    assert Number(n, t)[0] == if n < 0 then '-' else Digits(n)[0];
    if m < 0 {
      Cancel("-", "-", Digits(-m) + s, Digits(-n) + t);
      DigitsSplit(-m, -n, s, t);
    } else {
      DigitsSplit(m, n, s, t);
    }
  }

  /** The first character names the kind of value; no value starts with a stop. */
  function Kind(j: Json): int {
    match j
    case Null => 0
    case Bool(b) => if b then 1 else 2
    case Num(_) => 3
    case Str(_) => 4
    case Arr(_) => 5
    case Obj(_) => 6
  }

  function KindOf(c: char): int {
    if c == 'n' then 0 else if c == 't' then 1 else if c == 'f' then 2
    else if c == '\"' then 4 else if c == '[' then 5 else if c == '{' then 6
    else if c == '-' || '0' <= c <= '9' then 3 else 7
  }

  lemma FirstChar(j: Json, k: string)
    ensures |Write(j, k)| > 0 && KindOf(Write(j, k)[0]) == Kind(j)
  {
  }

  lemma {:induction false} WriteSplits(a: Json, b: Json, s: string, t: string)
    requires Stop(s) && Stop(t) && Write(a, s) == Write(b, t)
    ensures a == b && s == t
    decreases a, 1
  {
    FirstChar(a, s);
    FirstChar(b, t);
    match a
    case Null => Cancel("null", "null", s, t);
    case Bool(v) => var w := if v then "true" else "false"; Cancel(w, w, s, t);
    case Num(n) => NumberSplits(n, b.n, s, t);
    case Str(q) => QuotedSplits(q, b.s, s, t);
    case Arr(xs) => ArrSplits(xs, b.items, s, t);
    case Obj(fs) => ObjSplits(fs, b.fields, s, t);
  }

  lemma {:induction false} ArrSplits(xs: seq<Json>, ys: seq<Json>, s: string, t: string)
    requires Stop(s) && Stop(t) && Write(Arr(xs), s) == Write(Arr(ys), t)
    ensures xs == ys && s == t
    decreases xs, 1
  {
    var x := if xs == [] then "]" + s else Write(xs[0], WriteItems(xs[1..], s));
    var y := if ys == [] then "]" + t else Write(ys[0], WriteItems(ys[1..], t));
    Cancel("[", "[", x, y);
    if xs != [] { FirstChar(xs[0], WriteItems(xs[1..], s)); }
    if ys != [] { FirstChar(ys[0], WriteItems(ys[1..], t)); }
    if xs == [] {
      Cancel("]", "]", s, t);
    } else {
      WriteSplits(xs[0], ys[0], WriteItems(xs[1..], s), WriteItems(ys[1..], t));
      ItemsSplit(xs[1..], ys[1..], s, t);
      assert xs == [xs[0]] + xs[1..] && ys == [ys[0]] + ys[1..];
    }
  }

  lemma {:induction false} ObjSplits(fs: seq<Field>, gs: seq<Field>, s: string, t: string)
    requires Stop(s) && Stop(t) && Write(Obj(fs), s) == Write(Obj(gs), t)
    ensures fs == gs && s == t
    decreases fs, 1
  {
    var x := if fs == [] then "}" + s else WriteField(fs[0], WriteFields(fs[1..], s));
    var y := if gs == [] then "}" + t else WriteField(gs[0], WriteFields(gs[1..], t));
    Cancel("{", "{", x, y);
    assert fs != [] ==> x[0] == '\"';
    assert gs != [] ==> y[0] == '\"';
    if fs == [] {
      Cancel("}", "}", s, t);
    } else {
      FieldSplits(fs[0], gs[0], WriteFields(fs[1..], s), WriteFields(gs[1..], t));
      FieldsSplit(fs[1..], gs[1..], s, t);
      assert fs == [fs[0]] + fs[1..] && gs == [gs[0]] + gs[1..];
    }
  }

  lemma {:induction false} ItemsSplit(xs: seq<Json>, ys: seq<Json>, s: string, t: string)
    requires Stop(s) && Stop(t) && WriteItems(xs, s) == WriteItems(ys, t)
    ensures xs == ys && s == t
    decreases xs, 0
  {
    assert WriteItems(xs, s)[0] == if xs == [] then ']' else ',';
    assert WriteItems(ys, t)[0] == if ys == [] then ']' else ',';
    if xs == [] {
      Cancel("]", "]", s, t);
    } else {
      Cancel(",", ",", Write(xs[0], WriteItems(xs[1..], s)), Write(ys[0], WriteItems(ys[1..], t)));
      WriteSplits(xs[0], ys[0], WriteItems(xs[1..], s), WriteItems(ys[1..], t));
      ItemsSplit(xs[1..], ys[1..], s, t);
      assert xs == [xs[0]] + xs[1..] && ys == [ys[0]] + ys[1..];
    }
  }

  lemma {:induction false} FieldSplits(f: Field, g: Field, s: string, t: string)
    requires Stop(s) && Stop(t) && WriteField(f, s) == WriteField(g, t)
    ensures f == g && s == t
    decreases f, 0
  {
    QuotedSplits(f.name, g.name, ":" + Write(f.value, s), ":" + Write(g.value, t));
    Cancel(":", ":", Write(f.value, s), Write(g.value, t));
    WriteSplits(f.value, g.value, s, t);
  }

  lemma {:induction false} FieldsSplit(fs: seq<Field>, gs: seq<Field>, s: string, t: string)
    requires Stop(s) && Stop(t) && WriteFields(fs, s) == WriteFields(gs, t)
    ensures fs == gs && s == t
    decreases fs, 0
  {
    assert WriteFields(fs, s)[0] == if fs == [] then '}' else ',';
    assert WriteFields(gs, t)[0] == if gs == [] then '}' else ',';
    if fs == [] {
      Cancel("}", "}", s, t);
    } else {
      Cancel(",", ",", WriteField(fs[0], WriteFields(fs[1..], s)), WriteField(gs[0], WriteFields(gs[1..], t)));
      FieldSplits(fs[0], gs[0], WriteFields(fs[1..], s), WriteFields(gs[1..], t));
      FieldsSplit(fs[1..], gs[1..], s, t);
      assert fs == [fs[0]] + fs[1..] && gs == [gs[0]] + gs[1..];
    }
  }

  // ---- sorting by key -------------------------------------------------------

  lemma {:induction false} LessTotal(a: string, b: string)
    ensures Less(a, b) || Less(b, a) || a == b
    ensures !(Less(a, b) && Less(b, a)) && !Less(a, a)
    decreases |a|
  {
    if a != [] {
      if b != [] { LessTotal(a[1..], b[1..]); }
      LessTotal(a[1..], a[1..]);
      assert b != [] && a[0] == b[0] && a[1..] == b[1..] ==> a == [a[0]] + a[1..] == b;
    }
  }

  lemma {:induction false} LessTransitive(a: string, b: string, c: string)
    requires Less(a, b) && Less(b, c)
    ensures Less(a, c)
  {
    if a != [] && a[0] == b[0] == c[0] { LessTransitive(a[1..], b[1..], c[1..]); }
  }

  /** Keys strictly increase: what sorting a dict's entries gives. */
  ghost predicate Ascending(fs: seq<Field>) {
    forall i, j :: 0 <= i < j < |fs| ==> Less(fs[i].name, fs[j].name)
  }

  ghost predicate DistinctNames(fs: seq<Field>) {
    forall i, j :: 0 <= i < j < |fs| ==> fs[i].name != fs[j].name
  }

  lemma {:induction false} InsertElements(f: Field, fs: seq<Field>)
    ensures multiset(Insert(f, fs)) == multiset(fs) + multiset{f}
  {
    if fs != [] && Less(fs[0].name, f.name) {
      InsertElements(f, fs[1..]);
      assert fs == [fs[0]] + fs[1..];
    }
  }

  lemma {:induction false} SortElements(fs: seq<Field>)
    ensures multiset(Sort(fs)) == multiset(fs)
  {
    if fs != [] {
      SortElements(fs[1..]);
      InsertElements(fs[0], Sort(fs[1..]));
      assert fs == [fs[0]] + fs[1..];
    }
  }

  lemma {:induction false} InsertAscending(f: Field, fs: seq<Field>)
    requires Ascending(fs) && forall i :: 0 <= i < |fs| ==> fs[i].name != f.name
    ensures Ascending(Insert(f, fs))
  {
    if fs == [] {
    } else if !Less(fs[0].name, f.name) {
      LessTotal(fs[0].name, f.name);
      forall j | 0 < j < |fs| ensures Less(f.name, fs[j].name) { LessTransitive(f.name, fs[0].name, fs[j].name); }
    } else {
      InsertAscending(f, fs[1..]);
      InsertElements(f, fs[1..]);
      var r := Insert(f, fs[1..]);
      forall j | 0 <= j < |r| ensures Less(fs[0].name, r[j].name) {
        assert r[j] in multiset(fs[1..]) + multiset{f};
        assert r[j] in fs[1..] || r[j] == f;
      }
    }
  }

  lemma {:induction false} SortAscending(fs: seq<Field>)
    requires DistinctNames(fs)
    ensures Ascending(Sort(fs))
  {
    if fs != [] {
      SortAscending(fs[1..]);
      SortElements(fs[1..]);
      var r := Sort(fs[1..]);
      forall i | 0 <= i < |r| ensures r[i].name != fs[0].name {
        assert r[i] in multiset(fs[1..]);
        assert r[i] in fs[1..];
      }
      InsertAscending(fs[0], r);
    }
  }

  lemma TailElements(fs: seq<Field>)
    requires fs != [] && Ascending(fs)
    ensures forall f :: f in fs[1..] <==> f in fs && f != fs[0]
  {
    LessTotal(fs[0].name, fs[0].name);
    assert fs == [fs[0]] + fs[1..];
  }

  lemma HeadsAgree(fs: seq<Field>, gs: seq<Field>)
    requires fs != [] && gs != [] && Ascending(fs) && Ascending(gs)
    requires fs[0] in gs && gs[0] in fs
    ensures fs[0] == gs[0]
  {
    var i :| 0 <= i < |gs| && gs[i] == fs[0];
    var j :| 0 <= j < |fs| && fs[j] == gs[0];
    LessTotal(fs[0].name, gs[0].name);
    assert i == 0 || j == 0;
  }

  /** A set of entries has one ascending listing. */
  lemma {:induction false} AscendingUnique(fs: seq<Field>, gs: seq<Field>)
    requires Ascending(fs) && Ascending(gs) && |fs| == |gs|
    requires forall f :: f in fs <==> f in gs
    ensures fs == gs
  {
    if fs != [] {
      HeadsAgree(fs, gs);
      TailElements(fs);
      TailElements(gs);
      AscendingUnique(fs[1..], gs[1..]);
      assert fs == [fs[0]] + fs[1..] && gs == [gs[0]] + gs[1..];
    }
  }

  lemma SortKeeps(fs: seq<Field>)
    ensures |Sort(fs)| == |fs| && forall f :: f in Sort(fs) <==> f in fs
  {
    SortElements(fs);
    assert |multiset(Sort(fs))| == |multiset(fs)|;
    forall f ensures f in Sort(fs) <==> f in fs {
      assert f in multiset(Sort(fs)) <==> f in multiset(fs);
    }
  }

  // ---- the two halves of exactness ---------------------------------------------

  /** Every object in the tree is a dict: no key twice. */
  ghost predicate IsJson(j: Json) {
    match j
    case Arr(items) => forall i :: 0 <= i < |items| ==> IsJson(items[i])
    case Obj(fields) => DistinctNames(fields) && forall i :: 0 <= i < |fields| ==> IsJson(fields[i].value)
    case _ => true
  }

  /** Python's `==` on JSON values: the order of a dict's entries does not matter. */
  ghost predicate Same(a: Json, b: Json) {
    match (a, b)
    case (Arr(xs), Arr(ys)) => |xs| == |ys| && forall i :: 0 <= i < |xs| ==> Same(xs[i], ys[i])
    case (Obj(fs), Obj(gs)) =>
      && |fs| == |gs|
      && forall i :: 0 <= i < |fs| ==>
           exists j :: 0 <= j < |gs| && fs[i].name == gs[j].name && Same(fs[i].value, gs[j].value)
    case (_, _) => a == b
  }

  lemma {:induction false} NormSound(a: Json, b: Json)
    requires Norm(a) == Norm(b)
    ensures Same(a, b)
    decreases a, 1
  {
    match a
    case Arr(xs) =>
      var ys := b.items;
      assert NormItems(xs) == NormItems(ys);
      forall i | 0 <= i < |xs| ensures Same(xs[i], ys[i]) {
        assert NormItems(xs)[i] == NormItems(ys)[i];
        NormSound(xs[i], ys[i]);
      }
    case Obj(fs) => NormSoundObj(fs, b.fields);
    case _ =>
  }

  lemma {:induction false} NormSoundObj(fs: seq<Field>, gs: seq<Field>)
    requires Sort(NormFields(fs)) == Sort(NormFields(gs))
    ensures Same(Obj(fs), Obj(gs))
    decreases fs, 0
  {
    var p, q := NormFields(fs), NormFields(gs);
    SortKeeps(p);
    SortKeeps(q);
    assert |fs| == |p| == |q| == |gs|;
    hide Sort, Norm, NormFields;
    forall i | 0 <= i < |fs|
      ensures exists j :: 0 <= j < |gs| && fs[i].name == gs[j].name && Same(fs[i].value, gs[j].value)
    {
      assert p[i] in q;
      var j :| 0 <= j < |q| && q[j] == p[i];
      NormSound(fs[i].value, gs[j].value);
      assert fs[i].name == gs[j].name && Same(fs[i].value, gs[j].value);
    }
    assert Same(Obj(fs), Obj(gs));
  }

  lemma {:induction false} NormComplete(a: Json, b: Json)
    requires IsJson(a) && IsJson(b) && Same(a, b)
    ensures Norm(a) == Norm(b)
    decreases a
  {
    match (a, b)
    case (Arr(xs), Arr(ys)) =>
      forall i | 0 <= i < |xs| ensures Norm(xs[i]) == Norm(ys[i]) { NormComplete(xs[i], ys[i]); }
      assert Norm(a).items == Norm(b).items;
    case (Obj(fs), Obj(gs)) =>
      var p, q := NormFields(fs), NormFields(gs);
      forall i | 0 <= i < |fs| ensures p[i] in q {
        var j :| 0 <= j < |gs| && fs[i].name == gs[j].name && Same(fs[i].value, gs[j].value);
        NormComplete(fs[i].value, gs[j].value);
        assert p[i] == q[j];
      }
      SameSizeSameElements(p, q);
      SortKeeps(p);
      SortKeeps(q);
      SortAscending(p);
      SortAscending(q);
      AscendingUnique(Sort(p), Sort(q));
    case (_, _) =>
  }

  /** Two dicts of one size, the first inside the second, have the same entries. */
  lemma SameSizeSameElements(p: seq<Field>, q: seq<Field>)
    requires |p| == |q| && DistinctNames(p) && DistinctNames(q)
    requires forall i :: 0 <= i < |p| ==> p[i] in q
    ensures forall f :: f in p <==> f in q
  {
    var ps, qs := set i | 0 <= i < |p| :: p[i], set i | 0 <= i < |q| :: q[i];
    DistinctCount(p);
    DistinctCount(q);
    assert ps <= qs;
    SubsetSize(ps, qs);
    forall f ensures f in p <==> f in q {
      assert f in p <==> f in ps;
      assert f in q <==> f in qs;
    }
  }

  lemma {:induction false} DistinctCount(p: seq<Field>)
    requires DistinctNames(p)
    ensures |set i | 0 <= i < |p| :: p[i]| == |p|
  {
    if p != [] {
      var n := |p| - 1;
      DistinctCount(p[..n]);
      var front := set i | 0 <= i < |p[..n]| :: p[..n][i];
      assert (set i | 0 <= i < |p| :: p[i]) == front + {p[n]};
      assert p[n] !in front;
    }
  }

  /** The canonical text decides equality of JSON values, both ways. */
  lemma CanonicalExact(a: Json, b: Json)
    requires IsJson(a) && IsJson(b)
    ensures Canonical(a) == Canonical(b) <==> Same(a, b)
  {
    if Canonical(a) == Canonical(b) {
      CanonicalInjective(a, b);
    }
    if Same(a, b) {
      NormComplete(a, b);
    }
  }

  /** The injective half needs no assumption on the trees. */
  lemma CanonicalInjective(a: Json, b: Json)
    requires Canonical(a) == Canonical(b)
    ensures Same(a, b) && Norm(a) == Norm(b)
  {
    WriteSplits(Norm(a), Norm(b), "", "");
    NormSound(a, b);
  }
}
