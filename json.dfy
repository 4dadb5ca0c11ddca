/** JSON text as `JSON.stringify` writes it and `JSON.parse` reads it.
  * Numbers are restricted to integers; objects keep their members in
  * insertion order. */
module Json {
  import opened Wrappers
  import opened Text

  datatype Json =
    | JNull
    | JBool(b: bool)
    | JNum(n: int)
    | JStr(s: string)
    | JArr(items: seq<Json>)
    | JObj(members: seq<Member>)

  datatype Member = Member(key: string, value: Json)

  /** JavaScript truthiness of a parsed value. */
  predicate Truthy(j: Json)
  {
    match j
    case JNull => false
    case JBool(b) => b
    case JNum(n) => n != 0
    case JStr(s) => s != []
    case _ => true
  }

  /** Property lookup `j[key]` on a parsed object: the last member with that
    * key, as `JSON.parse` keeps the last of duplicated keys. */
  function Get(j: Json, key: string): (r: Option<Json>)
    ensures r.Some? ==> j.JObj? && exists i :: 0 <= i < |j.members| && j.members[i] == Member(key, r.value)
  {
    if j.JObj? then Lookup(j.members, key) else None
  }

  function Lookup(members: seq<Member>, key: string): (r: Option<Json>)
    ensures r.Some? ==> exists i :: 0 <= i < |members| && members[i] == Member(key, r.value)
    ensures r.None? ==> forall i :: 0 <= i < |members| ==> members[i].key != key
  {
    if members == [] then None
    else if members[|members| - 1].key == key then Some(members[|members| - 1].value)
    else Lookup(members[..|members| - 1], key)
  }

  // ----- characters -----

  predicate IsDigit(c: char)
  {
    '0' <= c <= '9'
  }

  function DigitChar(d: nat): (c: char)
    requires d < 10
    ensures IsDigit(c) && DigitValue(c) == d
  {
    (d + '0' as int) as char
  }

  function DigitValue(c: char): nat
    requires IsDigit(c)
  {
    c as int - '0' as int
  }

  function HexChar(d: nat): (c: char)
    requires d < 16
    ensures HexValue(c) == Some(d)
  {
    if d < 10 then DigitChar(d) else (d - 10 + 'a' as int) as char
  }

  function HexValue(c: char): Option<nat>
  {
    if IsDigit(c) then Some(DigitValue(c))
    else if 'a' <= c <= 'f' then Some(c as int - 'a' as int + 10)
    else if 'A' <= c <= 'F' then Some(c as int - 'A' as int + 10)
    else None
  }

  /** The white space `JSON.parse` skips between tokens. */
  predicate IsWs(c: char)
  {
    c == ' ' || c == '\t' || c == '\n' || c == '\r'
  }

  // ----- serialisation -----

  function NatText(n: nat): (r: string)
    ensures r != [] && IsDigit(r[0]) && IsDigit(r[|r| - 1])
    decreases n
  {
    if n < 10 then [DigitChar(n)] else NatText(n / 10) + [DigitChar(n % 10)]
  }

  function IntText(n: int): (r: string)
    ensures r != [] && IsDigit(r[|r| - 1])
  {
    if n < 0 then "-" + NatText(-n) else NatText(n)
  }

  /** How `JSON.stringify` writes one character of a string. */
  function EscapeChar(c: char): string
  {
    if c == '"' then "\\\""
    else if c == '\\' then "\\\\"
    else if c == '\n' then "\\n"
    else if c == '\r' then "\\r"
    else if c == '\t' then "\\t"
    else if c == '\U{0008}' then "\\b"
    else if c == '\U{000C}' then "\\f"
    else if (c as int) < 0x20 then "\\u00" + [HexChar(c as int / 16), HexChar(c as int % 16)]
    else [c]
  }

  function Escape(s: string): string
  {
    if s == [] then [] else EscapeChar(s[0]) + Escape(s[1..])
  }

  function Quote(s: string): string
  {
    "\"" + Escape(s) + "\""
  }

  /** `JSON.stringify(j)` without indentation. */
  function Serialize(j: Json): string
    decreases j, 1
  {
    match j
    case JNull => "null"
    case JBool(b) => if b then "true" else "false"
    case JNum(n) => IntText(n)
    case JStr(s) => Quote(s)
    case JArr(items) => "[" + SerializeItems(items) + "]"
    case JObj(members) => "{" + SerializeMembers(members) + "}"
  }

  function SerializeItems(items: seq<Json>): string
    decreases items, 0
  {
    if items == [] then ""
    else if |items| == 1 then Serialize(items[0])
    else Serialize(items[0]) + "," + SerializeItems(items[1..])
  }

  function SerializeMember(m: Member): string
    decreases m, 0
  {
    Quote(m.key) + ":" + Serialize(m.value)
  }

  function SerializeMembers(members: seq<Member>): string
    decreases members, 0
  {
    if members == [] then ""
    else if |members| == 1 then SerializeMember(members[0])
    else SerializeMember(members[0]) + "," + SerializeMembers(members[1..])
  }

  // ----- parsing -----

  function SkipWs(s: string): (r: string)
    ensures |r| <= |s|
    ensures r == [] || !IsWs(r[0])
  {
    if s != [] && IsWs(s[0]) then SkipWs(s[1..]) else s
  }

  /** The length of the run of digits at the start of `s`. */
  function DigitRun(s: string): (k: nat)
    ensures k <= |s|
  {
    if s != [] && IsDigit(s[0]) then 1 + DigitRun(s[1..]) else 0
  }

  predicate AllDigits(s: string)
  {
    forall i :: 0 <= i < |s| ==> IsDigit(s[i])
  }

  function NatValue(ds: string): nat
    requires AllDigits(ds)
  {
    if ds == [] then 0 else NatValue(ds[..|ds| - 1]) * 10 + DigitValue(ds[|ds| - 1])
  }

  /** A run of digits without a leading zero (a lone `0` is allowed). */
  function ParseNat(s: string): (r: Option<(nat, string)>)
    ensures r.Some? ==> |r.value.1| < |s|
  {
    var k := DigitRun(s);
    DigitRunDigits(s);
    if k == 0 || (s[0] == '0' && k > 1) then None else Some((NatValue(s[..k]), s[k..]))
  }

  function ParseInt(s: string): (r: Option<(int, string)>)
    ensures r.Some? ==> |r.value.1| < |s|
  {
    if s != [] && s[0] == '-' then
      match ParseNat(s[1..])
      case None => None
      case Some((n, rest)) => var m: int := 0 - n as int; Some((m, rest))
    else
      match ParseNat(s)
      case None => None
      case Some((n, rest)) => var m: int := n; Some((m, rest))
  }

  /** The character an escape sequence stands for (the text after `\`). */
  function Unescape(s: string): (r: Option<(char, string)>)
    ensures r.Some? ==> |r.value.1| < |s|
  {
    if s == [] then None
    else if s[0] == '"' then Some(('"', s[1..]))
    else if s[0] == '\\' then Some(('\\', s[1..]))
    else if s[0] == '/' then Some(('/', s[1..]))
    else if s[0] == 'n' then Some(('\n', s[1..]))
    else if s[0] == 'r' then Some(('\r', s[1..]))
    else if s[0] == 't' then Some(('\t', s[1..]))
    else if s[0] == 'b' then Some(('\U{0008}', s[1..]))
    else if s[0] == 'f' then Some(('\U{000C}', s[1..]))
    else if s[0] == 'u' && |s| >= 5 then
      var h := [HexValue(s[1]), HexValue(s[2]), HexValue(s[3]), HexValue(s[4])];
      if h[0].None? || h[1].None? || h[2].None? || h[3].None? then None
      else
        var code := ((h[0].value * 16 + h[1].value) * 16 + h[2].value) * 16 + h[3].value;
        if 0xD800 <= code < 0xE000 then None else Some((code as char, s[5..]))
    else None
  }

  /** The characters of a string literal after its opening quote, up to and
    * including the closing quote. */
  function ParseChars(s: string): (r: Option<(string, string)>)
    ensures r.Some? ==> |r.value.1| < |s|
    decreases |s|
  {
    if s == [] then None
    else if s[0] == '"' then Some(([], s[1..]))
    else if s[0] == '\\' then
      match Unescape(s[1..])
      case None => None
      case Some((c, rest)) =>
        match ParseChars(rest)
        case None => None
        case Some((t, after)) => Some(([c] + t, after))
    else if (s[0] as int) < 0x20 then None
    else
      match ParseChars(s[1..])
      case None => None
      case Some((t, after)) => Some(([s[0]] + t, after))
  }

  /** One value after optional white space; the rest of the text follows it.
    * The first character decides what kind of value is read. */
  function ParseValue(s: string): (r: Option<(Json, string)>)
    ensures r.Some? ==> |r.value.1| < |s|
    decreases |s|, 0
  {
    var t := SkipWs(s);
    if t == [] then None
    else if t[0] == 'n' then Keyword(t, "null", JNull)
    else if t[0] == 't' then Keyword(t, "true", JBool(true))
    else if t[0] == 'f' then Keyword(t, "false", JBool(false))
    else if t[0] == '"' then ParseString(t[1..])
    else if t[0] == '[' then ParseArray(t[1..])
    else if t[0] == '{' then ParseObject(t[1..])
    else ParseNumber(t)
  }

  function Keyword(t: string, word: string, v: Json): (r: Option<(Json, string)>)
    requires word != []
    ensures r.Some? ==> |r.value.1| < |t|
  {
    if |t| >= |word| && t[..|word|] == word then Some((v, t[|word|..])) else None
  }

  /** A string value after its opening quote. */
  function ParseString(s: string): (r: Option<(Json, string)>)
    ensures r.Some? ==> |r.value.1| < |s|
  {
    match ParseChars(s)
    case None => None
    case Some((str, rest)) => Some((JStr(str), rest))
  }

  function ParseNumber(t: string): (r: Option<(Json, string)>)
    ensures r.Some? ==> |r.value.1| < |t|
  {
    match ParseInt(t)
    case None => None
    case Some((n, rest)) => Some((JNum(n), rest))
  }

  /** An array after its `[`. */
  function ParseArray(s: string): (r: Option<(Json, string)>)
    ensures r.Some? ==> |r.value.1| < |s|
    decreases |s|, 2
  {
    var t := SkipWs(s);
    if t != [] && t[0] == ']' then Some((JArr([]), t[1..]))
    else
      match ParseItems(s)
      case None => None
      case Some((items, rest)) => Some((JArr(items), rest))
  }

  /** One or more comma-separated values and the closing `]`. */
  function ParseItems(s: string): (r: Option<(seq<Json>, string)>)
    ensures r.Some? ==> |r.value.1| < |s|
    decreases |s|, 1
  {
    match ParseValue(s)
    case None => None
    case Some((v, rest)) =>
      var t := SkipWs(rest);
      if t == [] then None
      else if t[0] == ']' then Some(([v], t[1..]))
      else if t[0] == ',' then
        match ParseItems(t[1..])
        case None => None
        case Some((vs, after)) => Some(([v] + vs, after))
      else None
  }

  /** An object after its `{`. */
  function ParseObject(s: string): (r: Option<(Json, string)>)
    ensures r.Some? ==> |r.value.1| < |s|
    decreases |s|, 2
  {
    var t := SkipWs(s);
    if t != [] && t[0] == '}' then Some((JObj([]), t[1..]))
    else
      match ParseMembers(s)
      case None => None
      case Some((members, rest)) => Some((JObj(members), rest))
  }

  /** One `"key": value` pair. */
  function ParseMember(s: string): (r: Option<(Member, string)>)
    ensures r.Some? ==> |r.value.1| < |s|
    decreases |s|, 0
  {
    var t := SkipWs(s);
    if t == [] || t[0] != '"' then None
    else
      match ParseChars(t[1..])
      case None => None
      case Some((key, rest)) =>
        var u := SkipWs(rest);
        if u == [] || u[0] != ':' then None
        else
          match ParseValue(u[1..])
          case None => None
          case Some((v, after)) => Some((Member(key, v), after))
  }

  /** One or more comma-separated members and the closing `}`. */
  function ParseMembers(s: string): (r: Option<(seq<Member>, string)>)
    ensures r.Some? ==> |r.value.1| < |s|
    decreases |s|, 1
  {
    match ParseMember(s)
    case None => None
    case Some((m, rest)) =>
      var t := SkipWs(rest);
      if t == [] then None
      else if t[0] == '}' then Some(([m], t[1..]))
      else if t[0] == ',' then
        match ParseMembers(t[1..])
        case None => None
        case Some((ms, after)) => Some(([m] + ms, after))
      else None
  }

  /** `JSON.parse(s)`: one value with only white space around it; `None`
    * where `JSON.parse` throws. */
  function Parse(s: string): Option<Json>
  {
    match ParseValue(s)
    case None => None
    case Some((v, rest)) => if SkipWs(rest) == [] then Some(v) else None
  }

  // ----- round trip -----

  lemma DigitRunDigits(s: string)
    ensures AllDigits(s[..DigitRun(s)])
  {
    if s != [] && IsDigit(s[0]) {
      DigitRunDigits(s[1..]);
      assert s[..DigitRun(s)] == [s[0]] + s[1..][..DigitRun(s[1..])];
    }
  }

  lemma {:induction false} NatTextDigits(n: nat)
    ensures AllDigits(NatText(n))
    ensures NatValue(NatText(n)) == n
    ensures |NatText(n)| > 1 ==> NatText(n)[0] != '0'
    decreases n
  {
    if n >= 10 {
      NatTextDigits(n / 10);
      var t := NatText(n);
      assert t[..|t| - 1] == NatText(n / 10);
    }
  }

  lemma {:induction false} DigitRunOfDigits(ds: string, rest: string)
    requires AllDigits(ds)
    requires rest == [] || !IsDigit(rest[0])
    ensures DigitRun(ds + rest) == |ds|
  {
    if ds != [] {
      assert (ds + rest)[1..] == ds[1..] + rest;
      DigitRunOfDigits(ds[1..], rest);
    } else {
      assert ds + rest == rest;
    }
  }

  lemma NatRoundTrip(n: nat, rest: string)
    requires rest == [] || !IsDigit(rest[0])
    ensures ParseNat(NatText(n) + rest) == Some((n, rest))
  {
    var t := NatText(n);
    NatTextDigits(n);
    DigitRunOfDigits(t, rest);
    assert (t + rest)[..|t|] == t;
    assert (t + rest)[|t|..] == rest;
  }

  lemma IntRoundTrip(n: int, rest: string)
    requires rest == [] || !IsDigit(rest[0])
    ensures ParseInt(IntText(n) + rest) == Some((n, rest))
  {
    if n < 0 {
      NegativeRoundTrip(-n, rest);
    } else {
      NatTextStart(n, rest);
      NatRoundTrip(n, rest);
    }
  }

  lemma NatTextStart(n: nat, rest: string)
    ensures (NatText(n) + rest)[0] != '-'
  {
    var t := NatText(n);
    assert (t + rest)[0] == t[0];
  }

  lemma NegativeRoundTrip(k: nat, rest: string)
    requires k > 0
    requires rest == [] || !IsDigit(rest[0])
    ensures ParseInt(("-" + NatText(k)) + rest) == Some((0 - k, rest))
  {
    var s := ("-" + NatText(k)) + rest;
    assert s[1..] == NatText(k) + rest;
    NatRoundTrip(k, rest);
  }

  /** Which characters `JSON.stringify` writes as an escape sequence. */
  lemma EscapeShape(c: char)
    ensures |EscapeChar(c)| == 1 <==> c != '"' && c != '\\' && (c as int) >= 0x20
    ensures |EscapeChar(c)| == 1 ==> EscapeChar(c) == [c]
    ensures |EscapeChar(c)| > 1 ==> EscapeChar(c)[0] == '\\'
  {
  }

  lemma UnescapeOfEscape(c: char, rest: string)
    requires |EscapeChar(c)| > 1
    ensures Unescape(EscapeChar(c)[1..] + rest) == Some((c, rest))
  {
    var s := EscapeChar(c)[1..] + rest;
    if (c as int) < 0x20 && c != '\n' && c != '\r' && c != '\t' && c != '\U{0008}' && c != '\U{000C}' {
      var code := c as int;
      assert s[0] == 'u' && s[1] == '0' && s[2] == '0';
      assert s[3] == HexChar(code / 16) && s[4] == HexChar(code % 16);
      assert s[5..] == rest;
    } else {
      assert s[1..] == rest;
    }
  }

  /** Reading one written character. */
  lemma CharsStep(c: char, tail: string)
    ensures ParseChars(EscapeChar(c) + tail) ==
      match ParseChars(tail)
      case None => None
      case Some((t, after)) => Some(([c] + t, after))
  {
    var e := EscapeChar(c);
    EscapeShape(c);
    if |e| > 1 {
      assert (e + tail)[0] == '\\';
      assert (e + tail)[1..] == e[1..] + tail;
      UnescapeOfEscape(c, tail);
    } else {
      assert (e + tail)[0] == c;
      assert (e + tail)[1..] == tail;
    }
  }

  lemma {:induction false} CharsRoundTrip(x: string, rest: string)
    ensures ParseChars(Escape(x) + "\"" + rest) == Some((x, rest))
  {
    if x == [] {
      assert Escape(x) + "\"" + rest == "\"" + rest;
    } else {
      var tail := Escape(x[1..]) + "\"" + rest;
      assert Escape(x) + "\"" + rest == EscapeChar(x[0]) + tail;
      CharsRoundTrip(x[1..], rest);
      CharsStep(x[0], tail);
      assert [x[0]] + x[1..] == x;
    }
  }

  lemma QuoteRoundTrip(x: string, rest: string)
    ensures Quote(x) + rest == "\"" + (Escape(x) + "\"" + rest)
    ensures ParseString((Quote(x) + rest)[1..]) == Some((JStr(x), rest))
  {
    assert (Quote(x) + rest)[1..] == Escape(x) + "\"" + rest;
    CharsRoundTrip(x, rest);
  }

  /** The first character of a serialised value is not white space and
    * tells its kind. */
  lemma SerializeStart(j: Json)
    ensures Serialize(j) != []
    ensures var c := Serialize(j)[0];
      match j
      case JNull => c == 'n'
      case JBool(b) => c == (if b then 't' else 'f')
      case JNum(_) => c == '-' || IsDigit(c)
      case JStr(_) => c == '"'
      case JArr(_) => c == '['
      case JObj(_) => c == '{'
  {
    if j.JNum? {
      NatTextDigits(if j.n < 0 then -j.n else j.n);
    }
  }

  lemma KeywordRoundTrip(word: string, v: Json, rest: string)
    requires word != []
    ensures Keyword(word + rest, word, v) == Some((v, rest))
  {
    assert (word + rest)[..|word|] == word;
    assert (word + rest)[|word|..] == rest;
  }

  lemma {:induction false} ValueRoundTrip(j: Json, rest: string)
    requires rest == [] || !IsDigit(rest[0])
    ensures ParseValue(Serialize(j) + rest) == Some((j, rest))
    decreases j, 1
  {
    match j
    case JNull => KeywordValueRoundTrip(j, "null", rest);
    case JBool(b) => KeywordValueRoundTrip(j, if b then "true" else "false", rest);
    case JNum(n) => NumberValueRoundTrip(n, rest);
    case JStr(x) => StringValueRoundTrip(x, rest);
    case JArr(items) =>
      ArrayRoundTrip(items, rest);
      ArrayValueRoundTrip(items, rest);
    case JObj(members) =>
      ObjectRoundTrip(members, rest);
      ObjectValueRoundTrip(members, rest);
  }

  lemma KeywordValueRoundTrip(j: Json, word: string, rest: string)
    requires j.JNull? || j.JBool?
    requires word == Serialize(j)
    ensures ParseValue(Serialize(j) + rest) == Some((j, rest))
  {
    SerializeStart(j);
    var s := word + rest;
    assert s[0] == word[0];
    assert SkipWs(s) == s;
    KeywordRoundTrip(word, j, rest);
  }

  lemma NumberValueRoundTrip(n: int, rest: string)
    requires rest == [] || !IsDigit(rest[0])
    ensures ParseValue(Serialize(JNum(n)) + rest) == Some((JNum(n), rest))
  {
    SerializeStart(JNum(n));
    var s := IntText(n) + rest;
    assert s[0] == IntText(n)[0];
    NumberDispatch(s);
    IntRoundTrip(n, rest);
  }

  /** Text starting with a digit or a minus sign is read as a number. */
  lemma NumberDispatch(t: string)
    requires t != [] && (t[0] == '-' || IsDigit(t[0]))
    ensures ParseValue(t) == ParseNumber(t)
  {
    assert !IsWs(t[0]);
    assert SkipWs(t) == t;
    assert t[0] !in "ntf\"[{";
  }

  lemma StringValueRoundTrip(x: string, rest: string)
    ensures ParseValue(Serialize(JStr(x)) + rest) == Some((JStr(x), rest))
  {
    var s := Quote(x) + rest;
    QuoteRoundTrip(x, rest);
    assert s[0] == '"';
    assert SkipWs(s) == s;
  }

  lemma ArrayValueRoundTrip(items: seq<Json>, rest: string)
    requires ParseArray(SerializeItems(items) + "]" + rest) == Some((JArr(items), rest))
    ensures ParseValue(Serialize(JArr(items)) + rest) == Some((JArr(items), rest))
  {
    var body := SerializeItems(items) + "]" + rest;
    assert Serialize(JArr(items)) == "[" + SerializeItems(items) + "]";
    Enclosed("[", SerializeItems(items), "]", rest);
    ArrayDispatch(body);
  }

  lemma Enclosed(open: string, inner: string, close: string, rest: string)
    ensures open + inner + close + rest == open + (inner + close + rest)
  {
  }

  /** Text starting with `[` is read as an array. */
  lemma ArrayDispatch(body: string)
    ensures ParseValue("[" + body) == ParseArray(body)
  {
    var s := "[" + body;
    assert s[0] == '[' && s[1..] == body;
    assert SkipWs(s) == s;
  }

  lemma ObjectValueRoundTrip(members: seq<Member>, rest: string)
    requires ParseObject(SerializeMembers(members) + "}" + rest) == Some((JObj(members), rest))
    ensures ParseValue(Serialize(JObj(members)) + rest) == Some((JObj(members), rest))
  {
    var body := SerializeMembers(members) + "}" + rest;
    assert Serialize(JObj(members)) == "{" + SerializeMembers(members) + "}";
    Enclosed("{", SerializeMembers(members), "}", rest);
    ObjectDispatch(body);
  }

  /** Text starting with `{` is read as an object. */
  lemma ObjectDispatch(body: string)
    ensures ParseValue("{" + body) == ParseObject(body)
  {
    var s := "{" + body;
    assert s[0] == '{' && s[1..] == body;
    assert SkipWs(s) == s;
  }

  lemma ItemsStart(items: seq<Json>)
    requires items != []
    ensures SerializeItems(items) != [] && SerializeItems(items)[0] == Serialize(items[0])[0]
  {
    var first := Serialize(items[0]);
    SerializeStart(items[0]);
    if |items| > 1 {
      var tail := "," + SerializeItems(items[1..]);
      assert SerializeItems(items) == first + tail;
      HeadOfAppend(first, tail);
    }
  }

  lemma HeadOfAppend(a: string, b: string)
    requires a != []
    ensures a + b != [] && (a + b)[0] == a[0]
  {
  }

  lemma ArrayRoundTrip(items: seq<Json>, rest: string)
    ensures ParseArray(SerializeItems(items) + "]" + rest) == Some((JArr(items), rest))
    decreases items, 1
  {
    var s := SerializeItems(items) + "]" + rest;
    if items == [] {
      assert s == "]" + rest;
      assert s[1..] == rest;
    } else {
      ItemsRoundTrip(items, rest);
      ItemsStart(items);
      SerializeStart(items[0]);
      assert s[0] == SerializeItems(items)[0];
      assert SkipWs(s) == s;
    }
  }

  /** Reading one value of a list and what follows it. */
  lemma ItemsStep(v: Json, sep: char, tail: string)
    requires sep == ']' || sep == ','
    ensures ParseItems(Serialize(v) + ([sep] + tail)) ==
      if sep == ']' then Some(([v], tail))
      else match ParseItems(tail)
        case None => None
        case Some((vs, after)) => Some(([v] + vs, after))
    decreases v, 2
  {
    ValueRoundTrip(v, [sep] + tail);
    assert SkipWs([sep] + tail) == [sep] + tail;
    assert ([sep] + tail)[1..] == tail;
  }

  lemma {:induction false} ItemsRoundTrip(items: seq<Json>, rest: string)
    requires items != []
    ensures ParseItems(SerializeItems(items) + "]" + rest) == Some((items, rest))
    decreases items, 0
  {
    var v := items[0];
    if |items| == 1 {
      assert SerializeItems(items) + "]" + rest == Serialize(v) + ("]" + rest);
      ItemsStep(v, ']', rest);
      assert items == [v];
    } else {
      var tail := SerializeItems(items[1..]) + "]" + rest;
      assert SerializeItems(items) + "]" + rest == Serialize(v) + ("," + tail);
      ItemsStep(v, ',', tail);
      ItemsRoundTrip(items[1..], rest);
      assert [v] + items[1..] == items;
    }
  }

  lemma MemberStart(m: Member)
    ensures SerializeMember(m) != [] && SerializeMember(m)[0] == '"'
  {
    assert SerializeMember(m) == "\"" + (Escape(m.key) + "\"" + ":" + Serialize(m.value));
  }

  lemma MembersStart(members: seq<Member>)
    requires members != []
    ensures SerializeMembers(members) != [] && SerializeMembers(members)[0] == '"'
  {
    var first := SerializeMember(members[0]);
    MemberStart(members[0]);
    if |members| > 1 {
      var tail := "," + SerializeMembers(members[1..]);
      assert SerializeMembers(members) == first + tail;
      HeadOfAppend(first, tail);
    }
  }

  lemma ObjectRoundTrip(members: seq<Member>, rest: string)
    ensures ParseObject(SerializeMembers(members) + "}" + rest) == Some((JObj(members), rest))
    decreases members, 3
  {
    var s := SerializeMembers(members) + "}" + rest;
    if members == [] {
      assert s == "}" + rest;
      assert s[1..] == rest;
    } else {
      MembersRoundTrip(members, rest);
      MembersStart(members);
      assert s[0] == '"';
      assert SkipWs(s) == s;
    }
  }

  lemma MemberRoundTrip(m: Member, rest: string)
    requires rest == [] || !IsDigit(rest[0])
    ensures ParseMember(SerializeMember(m) + rest) == Some((m, rest))
    decreases m, 1
  {
    var vtext := Serialize(m.value) + rest;
    MemberText(m, rest);
    ParseMemberStep(m.key, vtext);
    ValueRoundTrip(m.value, rest);
  }

  lemma MemberText(m: Member, rest: string)
    ensures SerializeMember(m) + rest == "\"" + (Escape(m.key) + "\"" + (":" + (Serialize(m.value) + rest)))
  {
  }

  /** Reading a key and its colon, whatever the value text after it. */
  lemma ParseMemberStep(key: string, vtext: string)
    ensures var r := ParseValue(vtext);
      ParseMember("\"" + (Escape(key) + "\"" + (":" + vtext))) ==
        if r.None? then None else Some((Member(key, r.value.0), r.value.1))
  {
    var after := ":" + vtext;
    var s := "\"" + (Escape(key) + "\"" + after);
    assert s[0] == '"';
    assert SkipWs(s) == s;
    assert s[1..] == Escape(key) + "\"" + after;
    CharsRoundTrip(key, after);
    assert SkipWs(after) == after;
    assert after[1..] == vtext;
  }

  lemma MembersStep(m: Member, sep: char, tail: string)
    requires sep == '}' || sep == ','
    ensures ParseMembers(SerializeMember(m) + ([sep] + tail)) ==
      if sep == '}' then Some(([m], tail))
      else match ParseMembers(tail)
        case None => None
        case Some((ms, after)) => Some(([m] + ms, after))
    decreases m, 2
  {
    MemberRoundTrip(m, [sep] + tail);
    assert SkipWs([sep] + tail) == [sep] + tail;
    assert ([sep] + tail)[1..] == tail;
  }

  lemma {:induction false} MembersRoundTrip(members: seq<Member>, rest: string)
    requires members != []
    ensures ParseMembers(SerializeMembers(members) + "}" + rest) == Some((members, rest))
    decreases members, 2
  {
    if |members| == 1 {
      assert SerializeMembers(members) + "}" + rest == SerializeMember(members[0]) + ("}" + rest);
      MembersStep(members[0], '}', rest);
      assert members == [members[0]];
    } else {
      MembersRoundTrip(members[1..], rest);
      MembersCons(members, rest);
    }
  }

  lemma MembersText(members: seq<Member>, rest: string)
    requires |members| > 1
    ensures SerializeMembers(members) + "}" + rest
      == SerializeMember(members[0]) + ("," + (SerializeMembers(members[1..]) + "}" + rest))
  {
    var a, b := SerializeMember(members[0]), SerializeMembers(members[1..]);
    var tail := b + "}" + rest;
    assert SerializeMembers(members) == a + "," + b;
    AppendAssoc(b, "}", rest);
    AppendAssoc(",", b, "}" + rest);
    AppendAssoc(a, ",", b);
    AppendAssoc(a + "," + b, "}", rest);
    AppendAssoc(a, "," + b, "}" + rest);
  }

  lemma MembersCons(members: seq<Member>, rest: string)
    requires |members| > 1
    requires ParseMembers(SerializeMembers(members[1..]) + "}" + rest) == Some((members[1..], rest))
    ensures ParseMembers(SerializeMembers(members) + "}" + rest) == Some((members, rest))
    decreases members, 1
  {
    var m := members[0];
    var tail := SerializeMembers(members[1..]) + "}" + rest;
    MembersText(members, rest);
    MembersStep(m, ',', tail);
    assert [m] + members[1..] == members;
  }

  // ----- the written text is one line -----

  lemma EscapeCharNoNewline(c: char)
    ensures '\n' !in EscapeChar(c)
  {
    if (c as int) < 0x20 && c != '\n' && c != '\r' && c != '\t' && c != '\U{0008}' && c != '\U{000C}' {
      var e := EscapeChar(c);
      assert e == ['\\', 'u', '0', '0', HexChar(c as int / 16), HexChar(c as int % 16)];
    }
  }

  lemma {:induction false} EscapeNoNewline(x: string)
    ensures '\n' !in Escape(x)
  {
    if x != [] {
      EscapeCharNoNewline(x[0]);
      EscapeNoNewline(x[1..]);
    }
  }

  lemma IntTextNoNewline(n: int)
    ensures '\n' !in IntText(n)
  {
    var k: nat := if n < 0 then -n else n;
    NatTextDigits(k);
    assert '\n' !in NatText(k);
  }

  /** `JSON.stringify` without indentation writes no line break: a newline
    * inside a string is written as the escape `\n`. */
  lemma {:induction false} NoNewline(j: Json)
    ensures '\n' !in Serialize(j)
    decreases j, 1
  {
    match j
    case JNull =>
    case JBool(_) =>
    case JNum(n) => IntTextNoNewline(n);
    case JStr(x) => EscapeNoNewline(x);
    case JArr(items) => ItemsNoNewline(items);
    case JObj(members) => MembersNoNewline(members);
  }

  lemma {:induction false} ItemsNoNewline(items: seq<Json>)
    ensures '\n' !in SerializeItems(items)
    decreases items, 0
  {
    if items != [] {
      NoNewline(items[0]);
      if |items| > 1 {
        ItemsNoNewline(items[1..]);
      }
    }
  }

  lemma {:induction false} MembersNoNewline(members: seq<Member>)
    ensures '\n' !in SerializeMembers(members)
    decreases members, 0
  {
    if members != [] {
      EscapeNoNewline(members[0].key);
      NoNewline(members[0].value);
      if |members| > 1 {
        MembersNoNewline(members[1..]);
      }
    }
  }

  /** The last character of a serialised value closes it. */
  lemma SerializeEnd(j: Json)
    ensures Serialize(j) != []
    ensures var t := Serialize(j); var c := t[|t| - 1];
      c == 'l' || c == 'e' || IsDigit(c) || c == '"' || c == ']' || c == '}'
  {
  }

  /** `JSON.parse(JSON.stringify(j))` gives back `j`. */
  lemma ParseSerialize(j: Json)
    ensures Parse(Serialize(j)) == Some(j)
  {
    ValueRoundTrip(j, []);
    assert Serialize(j) + [] == Serialize(j);
  }
}
