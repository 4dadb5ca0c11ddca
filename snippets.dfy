/** Injection of extra request properties (for example `response_format`)
  * into generated code snippets: a JavaScript `chatCompletionStream({...})`
  * call, a Python `chat.completions.create(...)` call, or the JSON body of a
  * curl command. */
module Snippets {
  import opened Wrappers
  import opened Text

  /** A property value as the snippet code receives it. `Other` stands for
    * numbers, arrays and objects, carried as the text `String(v)` gives. */
  datatype Value = Str(s: string) | Bool(b: bool) | Null | Other(shown: string)

  /** `formatJsJsonValue`: strings are quoted without escaping, `null` is
    * `null`, everything else is `String(v)`. */
  function FormatJsJsonValue(v: Value): (r: string)
    ensures v.Str? ==> |r| == |v.s| + 2 && r[0] == '"' && r[|r| - 1] == '"' && r[1..|r| - 1] == v.s
    ensures v.Null? ==> r == "null"
    ensures v.Bool? ==> r == (if v.b then "true" else "false")
    ensures v.Other? ==> r == v.shown
  {
    match v
    case Str(s) => "\"" + s + "\""
    case Null => "null"
    case Bool(b) => if b then "true" else "false"
    case Other(shown) => shown
  }

  /** `formatPythonValue`: as above, but with Python's `True`, `False`, `None`. */
  function FormatPythonValue(v: Value): (r: string)
    ensures v.Str? ==> |r| == |v.s| + 2 && r[0] == '"' && r[|r| - 1] == '"' && r[1..|r| - 1] == v.s
    ensures v.Null? ==> r == "None"
    ensures v.Bool? ==> r == (if v.b then "True" else "False")
    ensures v.Other? ==> r == v.shown
  {
    match v
    case Str(s) => "\"" + s + "\""
    case Null => "None"
    case Bool(b) => if b then "True" else "False"
    case Other(shown) => shown
  }

  /** The two formatters differ exactly on booleans and null. */
  lemma FormattersDifferOnlyOnBoolAndNull(v: Value)
    ensures FormatJsJsonValue(v) == FormatPythonValue(v) <==> !(v.Bool? || v.Null?)
  {
    match v
    case Bool(b) =>
      if b { assert FormatJsJsonValue(v)[0] != FormatPythonValue(v)[0]; }
      else { assert FormatJsJsonValue(v)[0] != FormatPythonValue(v)[0]; }
    case Null =>
      assert FormatJsJsonValue(v)[0] != FormatPythonValue(v)[0];
    case _ =>
  }

  /** The three snippet dialects `modifySnippet` recognises. */
  datatype Dialect = JavaScript | Python | Curl

  function OpenChar(d: Dialect): char
  {
    if d == Python then '(' else '{'
  }

  function CloseChar(d: Dialect): char
  {
    if d == Python then ')' else '}'
  }

  function FormatValue(d: Dialect, v: Value): string
  {
    if d == Python then FormatPythonValue(v) else FormatJsJsonValue(v)
  }

  /** The part of a property line before its value: `key: `, `key=` or `"key": `. */
  function KeyPart(d: Dialect, indent: string, key: string): string
  {
    match d
    case JavaScript => indent + key + ": "
    case Python => indent + key + "="
    case Curl => indent + "\"" + key + "\": "
  }

  /** One property line as the dialect's formatter writes it. */
  function PropLine(d: Dialect, indent: string, key: string, v: Value): string
  {
    KeyPart(d, indent, key) + FormatValue(d, v) + ",\n"
  }

  /** `newPropsStr`: the property lines in entry order. */
  function PropsText(d: Dialect, indent: string, props: seq<(string, Value)>): string
  {
    if |props| == 0 then ""
    else
      var last := props[|props| - 1];
      PropsText(d, indent, props[..|props| - 1]) + PropLine(d, indent, last.0, last.1)
  }

  // ----- the block-start patterns -----

  /** The literal text each pattern starts with. */
  function MarkerText(d: Dialect): string
  {
    match d
    case JavaScript => "client.chatCompletionStream"
    case Python => "client.chat.completions.create"
    case Curl => "-d"
  }

  /** The character the pattern expects after the literal and optional white space. */
  function MarkerQuote(d: Dialect): char
  {
    if d == Curl then '\'' else '('
  }

  /** The end of the longest white-space run starting at `i`. */
  function SkipSpaces(s: string, i: nat): (j: nat)
    requires i <= |s|
    ensures i <= j <= |s|
    ensures AllSpace(s[i..j]) && (j == |s| || !IsSpace(s[j]))
    decreases |s| - i
  {
    if i == |s| || !IsSpace(s[i]) then i else SkipSpaces(s, i + 1)
  }

  /** Where a match of the dialect's pattern starting at `p` ends:
    * `client\.chatCompletionStream\s*\(\s*`, `client\.chat\.completions\.create\s*\(`
    * or `-d\s*'(?:\\n)?\s*`. Greedy white space cannot give back a character
    * the next token needs, so each pattern has at most one match at `p`. */
  function MatchEndAt(s: string, d: Dialect, p: nat): (r: Option<nat>)
    ensures r.Some? ==> p < r.value <= |s|
  {
    if !OccursAt(s, MarkerText(d), p) then None
    else
      var b := SkipSpaces(s, p + |MarkerText(d)|);
      if b == |s| || s[b] != MarkerQuote(d) then None
      else match d
        case JavaScript => Some(SkipSpaces(s, b + 1))
        case Python => Some(b + 1)
        case Curl =>
          var c := if OccursAt(s, "\\n", b + 1) then b + 3 else b + 1;
          Some(SkipSpaces(s, c))
  }

  /** `snippet.match(pattern)`: the end of the leftmost match at or after `from`. */
  function FirstMatchEnd(s: string, d: Dialect, from: nat): (r: Option<nat>)
    ensures r.Some? ==> from < r.value <= |s|
    decreases |s| + 1 - from
  {
    if from > |s| then None
    else match MatchEndAt(s, d, from)
      case Some(e) => Some(e)
      case None => FirstMatchEnd(s, d, from + 1)
  }

  // ----- the balanced-bracket scan -----

  /** The nesting depth after the characters `s[lo..hi]`, starting from 1 for
    * the open character just before `lo`. */
  function Depth(s: string, oc: char, cc: char, lo: nat, hi: nat): int
    requires lo <= hi <= |s|
    decreases hi - lo
  {
    if hi == lo then 1
    else
      var step := if s[hi - 1] == oc then 1 else if s[hi - 1] == cc then -1 else 0;
      Depth(s, oc, cc, lo, hi - 1) + step
  }

  /** The first index at or after `j` at which the depth counted from `lo`
    * drops to zero. */
  function CloseIndex(s: string, oc: char, cc: char, lo: nat, j: nat): (r: Option<nat>)
    requires lo <= j <= |s|
    ensures r.Some? ==> j <= r.value < |s|
    decreases |s| - j
  {
    if j == |s| then None
    else if Depth(s, oc, cc, lo, j + 1) == 0 then Some(j)
    else CloseIndex(s, oc, cc, lo, j + 1)
  }

  /** `CloseIndex` finds the first point at or after `j` where the depth is zero,
    * and reports none only when there is no such point. */
  lemma {:induction false} CloseIndexFacts(s: string, oc: char, cc: char, lo: nat, j: nat)
    requires lo <= j <= |s|
    ensures var r := CloseIndex(s, oc, cc, lo, j);
      r.Some? ==> Depth(s, oc, cc, lo, r.value + 1) == 0
    ensures var r := CloseIndex(s, oc, cc, lo, j);
      r.Some? ==> forall hi :: j < hi <= r.value ==> Depth(s, oc, cc, lo, hi) != 0
    ensures var r := CloseIndex(s, oc, cc, lo, j);
      r.None? ==> forall hi :: j < hi <= |s| ==> Depth(s, oc, cc, lo, hi) != 0
    decreases |s| - j
  {
    if j < |s| && Depth(s, oc, cc, lo, j + 1) != 0 {
      CloseIndexFacts(s, oc, cc, lo, j + 1);
    }
  }

  /** The balance loop: scans forward from just after the open character and
    * stops where the depth first returns to zero. */
  method FindClose(s: string, oc: char, cc: char, open: nat) returns (close: Option<nat>)
    requires open < |s|
    ensures close == CloseIndex(s, oc, cc, open + 1, open + 1)
  {
    var balance := 1;
    var i := open + 1;
    while i < |s|
      invariant open + 1 <= i <= |s|
      invariant balance == Depth(s, oc, cc, open + 1, i)
      invariant balance != 0
      invariant CloseIndex(s, oc, cc, open + 1, open + 1) == CloseIndex(s, oc, cc, open + 1, i)
      decreases |s| - i
    {
      if s[i] == oc {
        balance := balance + 1;
      } else if s[i] == cc {
        balance := balance - 1;
      }
      if balance == 0 {
        return Some(i);
      }
      i := i + 1;
    }
    return None;
  }

  /** The block whose open character is the first one at or after `e`, and
    * its balanced close character. */
  function BlockAt(s: string, d: Dialect, e: nat): (r: Option<(nat, nat)>)
    ensures r.Some? ==> e <= r.value.0 < r.value.1 < |s|
    ensures r.Some? ==> s[r.value.0] == OpenChar(d)
    ensures r.Some? ==>
      CloseIndex(s, OpenChar(d), CloseChar(d), r.value.0 + 1, r.value.0 + 1) == Some(r.value.1)
  {
    var open := IndexOf(s, [OpenChar(d)], e);
    if open.None? then None
    else
      IndexOfFacts(s, [OpenChar(d)], e);
      var close := CloseIndex(s, OpenChar(d), CloseChar(d), open.value + 1, open.value + 1);
      if close.None? then None else Some((open.value, close.value))
  }

  /** Where the block is: the open character found from just before the end of
    * the pattern's match, and its balanced close character. */
  function LocateBlock(s: string, d: Dialect): (r: Option<(nat, nat)>)
    ensures r.Some? ==> r.value.0 < r.value.1 < |s|
    ensures r.Some? ==> s[r.value.0] == OpenChar(d)
  {
    match FirstMatchEnd(s, d, 0)
    case None => None
    case Some(e) => BlockAt(s, d, e - 1)
  }

  lemma BlockAtFound(s: string, d: Dialect, e: nat, open: nat, close: nat)
    requires IndexOf(s, [OpenChar(d)], e) == Some(open)
    requires CloseIndex(s, OpenChar(d), CloseChar(d), open + 1, open + 1) == Some(close)
    ensures BlockAt(s, d, e) == Some((open, close))
  {
  }

  lemma BlockAtNoOpen(s: string, d: Dialect, e: nat)
    requires IndexOf(s, [OpenChar(d)], e).None?
    ensures BlockAt(s, d, e).None?
  {
  }

  lemma BlockAtNoClose(s: string, d: Dialect, e: nat, open: nat)
    requires IndexOf(s, [OpenChar(d)], e) == Some(open)
    requires CloseIndex(s, OpenChar(d), CloseChar(d), open + 1, open + 1).None?
    ensures BlockAt(s, d, e).None?
  {
  }

  /** Without a match of the pattern nothing changes; with one, the block
    * is looked for from just before the match's end. */
  lemma InsertedWithoutMatch(s: string, props: seq<(string, Value)>, d: Dialect)
    requires FirstMatchEnd(s, d, 0).None?
    ensures Inserted(s, props, d) == s
  {
  }

  lemma LocatedAfterMatch(s: string, d: Dialect, e: nat)
    requires FirstMatchEnd(s, d, 0) == Some(e)
    ensures LocateBlock(s, d) == BlockAt(s, d, e - 1)
  {
  }

  // ----- indentation -----

  /** `line.match(/^(\s+)\S/)`: the leading white space of a line that has
    * some and then a visible character. */
  function IndentMatch(line: string): (r: Option<string>)
    ensures r.Some? ==> r.value != [] && r.value < line && AllSpace(r.value)
  {
    var k := SkipSpaces(line, 0);
    if 0 < k < |line| then Some(line[..k]) else None
  }

  /** The indentation of the first line that has one. */
  function FirstIndent(lines: seq<string>): Option<string>
  {
    if |lines| == 0 then None
    else if IndentMatch(lines[0]).Some? then IndentMatch(lines[0])
    else FirstIndent(lines[1..])
  }

  /** The index just after the last newline before `i` (0 if none): the start
    * of the line holding position `i`. */
  function LineStart(s: string, i: nat): (r: nat)
    requires i <= |s|
    ensures r <= i
    ensures forall k :: r <= k < i ==> s[k] != '\n'
    ensures r == 0 || s[r - 1] == '\n'
  {
    if i == 0 then 0 else if s[i - 1] == '\n' then i else LineStart(s, i - 1)
  }

  /** The indentation used for new lines: the block's own, else the open
    * character's line indentation plus four spaces. */
  function BlockIndent(s: string, open: nat, current: string): string
    requires open <= |s|
  {
    var lines := Split(current, '\n');
    var found := if |lines| > 1 then FirstIndent(lines) else None;
    match found
    case Some(ind) => ind
    case None =>
      var line := s[LineStart(s, open)..open];
      line[..SkipSpaces(line, 0)] + "    "
  }

  function ClosingIndent(indent: string): string
  {
    if |indent| >= 4 then indent[..|indent| - 4] else ""
  }

  // ----- splicing -----

  /** `replace(/,\s*$/, "")`: drops one comma that has only white space after it. */
  function RemoveTrailingComma(s: string): string
  {
    var t := TrimEnd(s);
    if EndsWith(t, ",") then t[..|t| - 1] else s
  }

  /** The existing block content with trailing white space removed and a
    * separating comma added if it has content. */
  function ExistingPart(current: string): (r: string)
    ensures TrimEnd(current) <= r
    ensures r == [] || EndsWith(r, ",")
  {
    var t := TrimEnd(current);
    if t != [] && !EndsWith(t, ",") then t + "," else t
  }

  /** What goes before the new property lines. `firstIsNewline` says whether
    * the character after the open character is a newline. */
  function Lead(current: string, firstIsNewline: bool): string
  {
    var existing := ExistingPart(current);
    if existing != [] then existing + "\n"
    else if (|current| > 0 && current[0] == '\n') || firstIsNewline then ""
    else "\n"
  }

  /** The new content between the open and close characters, given what goes
    * before the new lines and the indentation. */
  function Combined(lead: string, indent: string, current: string, d: Dialect, props: seq<(string, Value)>): string
  {
    Finish(RemoveTrailingComma(lead + PropsText(d, indent, props)), indent, current)
  }

  /** The closing-line fix-up after the trailing comma is gone. */
  function Finish(removed: string, indent: string, current: string): (r: string)
    ensures Trim(removed) != [] ==>
      r == if EndsWith(removed, "\n") then removed else removed + "\n" + ClosingIndent(indent)
  {
    if Trim(removed) != [] && !EndsWith(removed, "\n") then removed + "\n" + ClosingIndent(indent)
    else if Trim(removed) == [] && '\n' !in current then "\n"
    else removed
  }

  /** The snippet with the block between `open` and `close` rewritten. */
  function Spliced(s: string, open: nat, close: nat, d: Dialect, props: seq<(string, Value)>): string
    requires open < close < |s|
  {
    var current := s[open + 1..close];
    var lead := Lead(current, s[open + 1] == '\n');
    s[..open + 1] + Combined(lead, BlockIndent(s, open, current), current, d, props) + s[close..]
  }

  /** `insertPropertiesInternal` for one dialect. */
  function Inserted(s: string, props: seq<(string, Value)>, d: Dialect): (r: string)
    ensures |props| == 0 ==> r == s
    ensures LocateBlock(s, d).None? ==> r == s
  {
    if |props| == 0 then s
    else match LocateBlock(s, d)
      case None => s
      case Some(block) => Spliced(s, block.0, block.1, d, props)
  }

  /** The dialect `modifySnippet` picks, testing JavaScript, then Python, then curl. */
  function DialectOf(s: string): (r: Option<Dialect>)
    ensures r == Some(JavaScript) <==> Contains(s, "client.chatCompletionStream")
    ensures r == Some(Python) <==>
      !Contains(s, "client.chatCompletionStream") && Contains(s, "client.chat.completions.create")
    ensures r == Some(Curl) <==>
      !Contains(s, "client.chatCompletionStream") && !Contains(s, "client.chat.completions.create")
      && Contains(s, "curl") && Contains(s, "-d")
  {
    if Contains(s, "client.chatCompletionStream") then Some(JavaScript)
    else if Contains(s, "client.chat.completions.create") then Some(Python)
    else if Contains(s, "curl") && Contains(s, "-d") then Some(Curl)
    else None
  }

  /** `modifySnippet` */
  function Modified(s: string, props: seq<(string, Value)>): (r: string)
    ensures DialectOf(s).None? ==> r == s
    ensures DialectOf(s).Some? ==> r == Inserted(s, props, DialectOf(s).value)
  {
    match DialectOf(s)
    case None => s
    case Some(d) => Inserted(s, props, d)
  }

  // ----- the imperative code -----

  /** The indentation search loop over the block's lines. */
  method FindIndent(lines: seq<string>) returns (indent: Option<string>)
    ensures indent == FirstIndent(lines)
  {
    var i := 0;
    while i < |lines|
      invariant 0 <= i <= |lines|
      invariant FirstIndent(lines[i..]) == FirstIndent(lines)
      decreases |lines| - i
    {
      assert lines[i..][1..] == lines[i + 1..];
      var m := IndentMatch(lines[i]);
      if m.Some? {
        return m;
      }
      i := i + 1;
    }
    return None;
  }

  lemma PropsTextSnoc(d: Dialect, indent: string, props: seq<(string, Value)>, i: nat)
    requires i < |props|
    ensures PropsText(d, indent, props[..i + 1])
      == PropsText(d, indent, props[..i]) + PropLine(d, indent, props[i].0, props[i].1)
  {
    assert props[..i + 1][..i] == props[..i];
  }

  /** The `forEach` that appends one formatted line per property. */
  method BuildPropsText(d: Dialect, indent: string, props: seq<(string, Value)>) returns (text: string)
    ensures text == PropsText(d, indent, props)
  {
    text := "";
    var i := 0;
    while i < |props|
      invariant 0 <= i <= |props|
      invariant text == PropsText(d, indent, props[..i])
      decreases |props| - i
    {
      PropsTextSnoc(d, indent, props, i);
      text := text + PropLine(d, indent, props[i].0, props[i].1);
      i := i + 1;
    }
    assert props[..|props|] == props;
  }

  /** The indentation computed as the source does it. */
  method ComputeIndent(s: string, open: nat, current: string) returns (indent: string)
    requires open <= |s|
    ensures indent == BlockIndent(s, open, current)
  {
    var lines := Split(current, '\n');
    var found: Option<string> := None;
    if |lines| > 1 {
      found := FindIndent(lines);
    }
    if found.Some? {
      indent := found.value;
    } else {
      var line := s[LineStart(s, open)..open];
      indent := line[..SkipSpaces(line, 0)] + "    ";
    }
  }

  /** The reassignments of `combinedContent`. */
  method CombineContent(s: string, open: nat, current: string, indent: string, d: Dialect,
                        props: seq<(string, Value)>) returns (combined: string)
    requires open + 1 < |s|
    ensures combined == Combined(Lead(current, s[open + 1] == '\n'), indent, current, d, props)
  {
    var newProps := BuildPropsText(d, indent, props);
    var existing := ExistingPart(current);
    if existing != [] {
      combined := existing + "\n" + newProps;
    } else if (|current| > 0 && current[0] == '\n') || s[open + 1] == '\n' {
      combined := newProps;
    } else {
      combined := "\n" + newProps;
    }
    assert combined == Lead(current, s[open + 1] == '\n') + newProps;
    combined := RemoveTrailingComma(combined);
    ghost var removed := combined;
    if Trim(combined) != [] && !EndsWith(combined, "\n") {
      combined := combined + "\n" + ClosingIndent(indent);
    } else if Trim(combined) == [] && '\n' !in current {
      combined := "\n";
    }
    assert combined == Finish(removed, indent, current);
  }

  /** `insertPropertiesInternal`: splices the property lines into the block. */
  method InsertProperties(s: string, props: seq<(string, Value)>, d: Dialect) returns (r: string)
    ensures r == Inserted(s, props, d)
  {
    if |props| == 0 {
      return s;
    }
    var matchEnd := FirstMatchEnd(s, d, 0);
    if matchEnd.None? {
      InsertedWithoutMatch(s, props, d);
      return s;
    }
    LocatedAfterMatch(s, d, matchEnd.value);
    r := InsertFrom(s, props, d, matchEnd.value - 1);
  }

  /** The block search and splice from the character before the end of the
    * pattern's match. */
  method InsertFrom(s: string, props: seq<(string, Value)>, d: Dialect, from: nat) returns (r: string)
    requires |props| > 0 && LocateBlock(s, d) == BlockAt(s, d, from)
    ensures r == Inserted(s, props, d)
  {
    var openAt := IndexOf(s, [OpenChar(d)], from);
    if openAt.None? {
      BlockAtNoOpen(s, d, from);
      return s;
    }
    var open := openAt.value;
    var closeAt := FindClose(s, OpenChar(d), CloseChar(d), open);
    if closeAt.None? {
      BlockAtNoClose(s, d, from, open);
      return s;
    }
    var close := closeAt.value;
    BlockAtFound(s, d, from, open, close);
    InsertedIsSpliced(s, props, d, open, close);
    r := SpliceBlock(s, open, close, d, props);
  }

  /** Rewrites the content between the located open and close characters. */
  method SpliceBlock(s: string, open: nat, close: nat, d: Dialect, props: seq<(string, Value)>)
    returns (r: string)
    requires open < close < |s|
    ensures r == Spliced(s, open, close, d, props)
  {
    var current := s[open + 1..close];
    var indent := ComputeIndent(s, open, current);
    var combined := CombineContent(s, open, current, indent, d, props);
    r := s[..open + 1] + combined + s[close..];
    SplicedFromParts(s, open, close, d, props, indent, combined);
  }

  /** The method's pieces put together are `Spliced`. */
  lemma SplicedFromParts(s: string, open: nat, close: nat, d: Dialect, props: seq<(string, Value)>,
                         indent: string, combined: string)
    requires open < close < |s|
    requires indent == BlockIndent(s, open, s[open + 1..close])
    requires combined == Combined(Lead(s[open + 1..close], s[open + 1] == '\n'), indent, s[open + 1..close], d, props)
    ensures Spliced(s, open, close, d, props) == s[..open + 1] + combined + s[close..]
  {
  }

  /** `modifySnippet` */
  method ModifySnippet(s: string, props: seq<(string, Value)>) returns (r: string)
    ensures r == Modified(s, props)
  {
    var d := DialectOf(s);
    if d.None? {
      return s;
    }
    r := InsertProperties(s, props, d.value);
  }

  // ----- properties of the splice -----

  /** The property text ends with the last line's `,\n`. */
  lemma PropsTextEnds(d: Dialect, indent: string, props: seq<(string, Value)>)
    requires |props| > 0
    ensures var p := PropsText(d, indent, props);
      var last := props[|props| - 1];
      EndsWith(p, ",\n")
      && p[..|p| - 2] == PropsText(d, indent, props[..|props| - 1])
                         + KeyPart(d, indent, last.0) + FormatValue(d, last.1)
  {
    var last := props[|props| - 1];
    var body := PropsText(d, indent, props[..|props| - 1]) + KeyPart(d, indent, last.0) + FormatValue(d, last.1);
    var p := PropsText(d, indent, props);
    assert p == body + ",\n";
    assert p[..|p| - 2] == body;
  }

  /** The trailing-comma removal takes off exactly the `,\n` ending the last
    * property line, whatever precedes it. */
  lemma RemoveTrailingCommaOfLines(x: string, p: string)
    requires EndsWith(p, ",\n")
    ensures RemoveTrailingComma(x + p) == x + p[..|p| - 2]
  {
    var s := x + p;
    assert s[|s| - 1] == '\n';
    assert s[..|s| - 1] == x + p[..|p| - 1];
    assert s[..|s| - 1][|s| - 2] == ',';
    assert TrimEnd(s) == s[..|s| - 1];
    assert (x + p[..|p| - 1])[..|s| - 2] == x + p[..|p| - 2];
  }

  /** Every key part holds a visible character right after the indentation. */
  lemma KeyPartVisible(d: Dialect, indent: string, key: string)
    ensures Trim(KeyPart(d, indent, key)) != []
  {
    var t := KeyPart(d, indent, key);
    match d
    case JavaScript => VisibleNotBlank(t, |indent| + |key|);
    case Python => VisibleNotBlank(t, |indent| + |key|);
    case Curl => VisibleNotBlank(t, |indent|);
  }

  /** After the comma removal, the block text is the lead and the property
    * lines without the final `,\n`, and it has visible content. */
  lemma RemovedFacts(lead: string, indent: string, d: Dialect, props: seq<(string, Value)>)
    requires |props| > 0
    ensures var p := PropsText(d, indent, props);
      |p| >= 2
      && RemoveTrailingComma(lead + p) == lead + p[..|p| - 2]
      && Trim(lead + p[..|p| - 2]) != []
      && EndsWith(lead + p[..|p| - 2], "\n") == EndsWith(p[..|p| - 2], "\n")
  {
    var p := PropsText(d, indent, props);
    PropsTextEnds(d, indent, props);
    RemoveTrailingCommaOfLines(lead, p);
    var last := props[|props| - 1];
    var init := PropsText(d, indent, props[..|props| - 1]);
    var key := KeyPart(d, indent, last.0);
    var fv := FormatValue(d, last.1);
    KeyPartVisible(d, indent, last.0);
    VisibleInConcat(init, key);
    VisibleInConcat(init + key, fv);
    VisibleInConcat(lead, p[..|p| - 2]);
    assert |p[..|p| - 2]| >= 1 by {
      TrimEmptyIffAllSpace(p[..|p| - 2]);
    }
    EndsWithAppend(lead, p[..|p| - 2], "\n");
  }

  /** The new block content: the lead, every property line in entry order
    * with the last one's `,\n` removed, then a newline and the closing
    * indentation unless the last value itself ends the line. */
  lemma CombinedShape(lead: string, indent: string, current: string, d: Dialect,
                      props: seq<(string, Value)>)
    requires |props| > 0
    ensures var p := PropsText(d, indent, props);
      |p| >= 2 &&
      Combined(lead, indent, current, d, props)
        == if EndsWith(p[..|p| - 2], "\n") then lead + p[..|p| - 2]
           else lead + p[..|p| - 2] + "\n" + ClosingIndent(indent)
  {
    RemovedFacts(lead, indent, d, props);
  }

  /** The located block of a snippet, and the parts `Spliced` works from. */
  lemma InsertedIsSpliced(s: string, props: seq<(string, Value)>, d: Dialect, open: nat, close: nat)
    requires |props| > 0 && LocateBlock(s, d) == Some((open, close))
    ensures open < close < |s|
    ensures Inserted(s, props, d) == Spliced(s, open, close, d, props)
  {
  }

  /** Text up to and including the open character, and from the close
    * character on, is kept verbatim; between them is the combined content. */
  lemma InsertedKeepsOutside(s: string, props: seq<(string, Value)>, d: Dialect, open: nat, close: nat)
    requires |props| > 0 && LocateBlock(s, d) == Some((open, close))
    ensures open < close < |s|
    ensures s[..open + 1] <= Inserted(s, props, d)
    ensures EndsWith(Inserted(s, props, d), s[close..])
  {
    InsertedIsSpliced(s, props, d, open, close);
    SplicedKeepsOutside(s, open, close, d, props);
  }

  lemma SplicedKeepsOutside(s: string, open: nat, close: nat, d: Dialect, props: seq<(string, Value)>)
    requires open < close < |s|
    ensures var r := Spliced(s, open, close, d, props);
      s[..open + 1] <= r && EndsWith(r, s[close..])
  {
    var current := s[open + 1..close];
    var mid := Combined(Lead(current, s[open + 1] == '\n'), BlockIndent(s, open, current), current, d, props);
    var r := Spliced(s, open, close, d, props);
    assert r == s[..open + 1] + mid + s[close..];
    assert r[..open + 1] == s[..open + 1];
    assert r[|r| - |s[close..]|..] == s[close..];
  }

  /** The existing content survives at the head of the block, with its
    * trailing white space trimmed and a separating comma. */
  lemma ExistingContentKept(s: string, props: seq<(string, Value)>, d: Dialect, open: nat, close: nat)
    requires |props| > 0 && LocateBlock(s, d) == Some((open, close))
    ensures open < close < |s|
    ensures var t := TrimEnd(s[open + 1..close]);
      t != [] ==> s[..open + 1] + (t + (if EndsWith(t, ",") then "" else ",") + "\n") <= Inserted(s, props, d)
  {
    var current := s[open + 1..close];
    var lead := Lead(current, s[open + 1] == '\n');
    var indent := BlockIndent(s, open, current);
    var combined := Combined(lead, indent, current, d, props);
    InsertedIsSpliced(s, props, d, open, close);
    SplicedFromParts(s, open, close, d, props, indent, combined);
    LeadStartsCombined(lead, indent, current, d, props);
    var t := TrimEnd(current);
    if t != [] {
      LeadOfExisting(current, s[open + 1] == '\n');
      PrefixInConcat(s[..open + 1], lead, combined, s[close..]);
    }
  }

  /** When the block has content, what goes before the new lines is that
    * content, trimmed, with a comma unless it already ends in one. */
  lemma LeadOfExisting(current: string, firstIsNewline: bool)
    requires TrimEnd(current) != []
    ensures var t := TrimEnd(current);
      Lead(current, firstIsNewline) == t + (if EndsWith(t, ",") then "" else ",") + "\n"
  {
  }

  /** The combined content starts with the lead. */
  lemma LeadStartsCombined(lead: string, indent: string, current: string, d: Dialect,
                           props: seq<(string, Value)>)
    requires |props| > 0
    ensures lead <= Combined(lead, indent, current, d, props)
  {
    CombinedShape(lead, indent, current, d, props);
  }

  lemma PrefixInConcat(a: string, b: string, c: string, e: string)
    requires b <= c
    ensures a + b <= a + c + e
  {
    assert (a + c + e)[..|a + b|] == a + b;
  }

  /** No comma is left dangling at the end of the block content, provided
    * the last value's own text does not end in one. */
  lemma {:induction false} CombinedHasNoTrailingComma(lead: string, indent: string, current: string,
                                                      d: Dialect, props: seq<(string, Value)>)
    requires |props| > 0 && AllSpace(indent)
    requires !EndsWith(TrimEnd(FormatValue(d, props[|props| - 1].1)), ",")
    ensures !EndsWith(TrimEnd(Combined(lead, indent, current, d, props)), ",")
  {
    var p := PropsText(d, indent, props);
    var last := props[|props| - 1];
    var init := PropsText(d, indent, props[..|props| - 1]);
    var fv := FormatValue(d, last.1);
    CombinedShape(lead, indent, current, d, props);
    PropsTextEnds(d, indent, props);
    var body := lead + p[..|p| - 2];
    assert body == lead + ((init + KeyPart(d, indent, last.0)) + fv);
    TrimOfLastLine(lead, init, fv, d, indent, last.0);
    if !EndsWith(p[..|p| - 2], "\n") {
      ClosedTrim(body, indent);
    }
  }

  /** The closing line added after the last property is white space only. */
  lemma ClosedTrim(body: string, indent: string)
    requires AllSpace(indent)
    ensures TrimEnd(body + "\n" + ClosingIndent(indent)) == TrimEnd(body)
  {
    assert AllSpace(ClosingIndent(indent));
    TrimEndAppendSpaces(body + "\n", ClosingIndent(indent));
    TrimEndAppendSpaces(body, "\n");
  }

  lemma TrimOfLastLine(lead: string, init: string, fv: string, d: Dialect, indent: string, key: string)
    requires !EndsWith(TrimEnd(fv), ",")
    ensures !EndsWith(TrimEnd(lead + ((init + KeyPart(d, indent, key)) + fv)), ",")
  {
    var k := KeyPart(d, indent, key);
    var q := init + k;
    KeyPartTrim(d, indent, key);
    var tq: string;
    if TrimEnd(fv) != [] {
      TrimEndAppendVisible(q, fv);
      tq := q + TrimEnd(fv);
      EndsWithAppend(q, TrimEnd(fv), ",");
    } else {
      TrimEndFacts(fv);
      assert fv[|TrimEnd(fv)|..] == fv;
      TrimEndAppendSpaces(q, fv);
      TrimEndAppendVisible(init, k);
      tq := init + TrimEnd(k);
      EndsWithAppend(init, TrimEnd(k), ",");
    }
    assert TrimEnd(q + fv) == tq && tq != [] && !EndsWith(tq, ",");
    TrimEndAppendVisible(lead, q + fv);
    EndsWithAppend(lead, tq, ",");
  }

  /** The same, stated for the whole snippet. */
  lemma NoTrailingComma(s: string, props: seq<(string, Value)>, d: Dialect, open: nat, close: nat)
    requires |props| > 0 && LocateBlock(s, d) == Some((open, close))
    requires !EndsWith(TrimEnd(FormatValue(d, props[|props| - 1].1)), ",")
    ensures open < close < |s|
    ensures var current := s[open + 1..close];
      var mid := Combined(Lead(current, s[open + 1] == '\n'), BlockIndent(s, open, current), current, d, props);
      Inserted(s, props, d) == s[..open + 1] + mid + s[close..] && !EndsWith(TrimEnd(mid), ",")
  {
    var current := s[open + 1..close];
    InsertedIsSpliced(s, props, d, open, close);
    IndentIsSpace(s, open, current);
    CombinedHasNoTrailingComma(Lead(current, s[open + 1] == '\n'), BlockIndent(s, open, current), current, d, props);
  }

  /** A key part trims to something that ends in `:` or `=`. */
  lemma KeyPartTrim(d: Dialect, indent: string, key: string)
    ensures TrimEnd(KeyPart(d, indent, key)) != []
    ensures !EndsWith(TrimEnd(KeyPart(d, indent, key)), ",")
  {
    match d
    case JavaScript =>
      assert KeyPart(d, indent, key) == (indent + key + ":") + " ";
      TrimEndAppendSpaces(indent + key + ":", " ");
    case Python =>
    case Curl =>
      assert KeyPart(d, indent, key) == (indent + "\"" + key + "\":") + " ";
      TrimEndAppendSpaces(indent + "\"" + key + "\":", " ");
  }

  /** The indentation is white space. */
  lemma IndentIsSpace(s: string, open: nat, current: string)
    requires open <= |s|
    ensures AllSpace(BlockIndent(s, open, current))
  {
    var lines := Split(current, '\n');
    if |lines| > 1 {
      FirstIndentSpace(lines);
    }
  }

  lemma {:induction false} FirstIndentSpace(lines: seq<string>)
    ensures FirstIndent(lines).Some? ==> AllSpace(FirstIndent(lines).value)
    decreases |lines|
  {
    if |lines| > 0 && IndentMatch(lines[0]).None? {
      FirstIndentSpace(lines[1..]);
    }
  }
}
