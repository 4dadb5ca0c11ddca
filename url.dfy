/** `src/lib/utils/url.ts`: `toURL` and `extractDomain`, the heuristic that
  * trims a hostname to its registrable part without a public-suffix list.
  * Parsing a string with `new URL` is a parameter that gives the hostname,
  * or `None` where the constructor throws. */
module Url {
  import opened Wrappers
  import opened Text

  /** The `unknown` argument: a `URL` instance (its hostname), a string, or
    * any other value. */
  datatype Value = UrlInstance(hostname: string) | StringValue(text: string) | OtherValue

  /** `toURL(value)`: the hostname of the URL it stands for, or `None` for
    * `null`. */
  function ToUrl(v: Value, parse: string -> Option<string>): (r: Option<string>)
    ensures v.UrlInstance? ==> r == Some(v.hostname)
    ensures v.OtherValue? ==> r.None?
    ensures v.StringValue? ==> (r.Some? <==> v.text != [] && parse(v.text).Some? && parse(v.text).value != [])
    ensures v.StringValue? && r.Some? ==> r == parse(v.text)
  {
    match v
    case UrlInstance(h) => Some(h)
    case OtherValue => None
    case StringValue(s) =>
      if s == [] then None
      else
        match parse(s)
        case None => None
        case Some(h) => if h != [] then Some(h) else None
  }

  /** Second-level labels that make the last two labels a public suffix. */
  const Prefixes: seq<string> := ["com", "co", "org", "net", "gov", "edu"]

  /** `extractDomain` once a hostname is known. */
  function DomainOf(hostname: string): string
  {
    Trimmed(hostname, Split(hostname, '.'))
  }

  /** The body of `extractDomain` after `url.hostname.split(".")`. */
  function Trimmed(hostname: string, parts: seq<string>): string
  {
    var n := |parts|;
    if n <= 2 then hostname
    else if parts[n - 2] in Prefixes then parts[n - 3] + "." + (parts[n - 2] + "." + parts[n - 1])
    else Join(JsSlice(parts, -2, n), ".")
  }

  /** `extractDomain(value)`: `None` stands for `null`. */
  function ExtractDomain(v: Value, parse: string -> Option<string>): (r: Option<string>)
    ensures r.None? <==> ToUrl(v, parse).None?
    ensures r.Some? ==> r.value == DomainOf(ToUrl(v, parse).value)
  {
    match ToUrl(v, parse)
    case None => None
    case Some(h) => Some(DomainOf(h))
  }

  /** The labels kept: the last three behind a listed second-level label,
    * otherwise the last two, and all of them when there are at most two. */
  function KeptLabels(parts: seq<string>): (r: seq<string>)
    requires |parts| >= 1
    ensures 1 <= |r| <= 3 && |r| <= |parts| && r == parts[|parts| - |r|..]
  {
    var n := |parts|;
    if n <= 2 then parts
    else if parts[n - 2] in Prefixes then parts[n - 3..]
    else parts[n - 2..]
  }

  lemma JoinThree(a: string, b: string, c: string)
    ensures Join([a, b, c], ".") == a + "." + (b + "." + c)
  {
    JoinCons(a, [b, c], ".");
    assert [a] + [b, c] == [a, b, c];
    JoinCons(b, [c], ".");
    assert [b] + [c] == [b, c];
    AppendAssoc(a + ".", b + ".", c);
    AppendAssoc(a, ".", b + "." + c);
  }

  /** The domain is the kept labels joined with dots. */
  lemma DomainIsKeptLabels(hostname: string)
    ensures DomainOf(hostname) == Join(KeptLabels(Split(hostname, '.')), ".")
  {
    var parts := Split(hostname, '.');
    if |parts| <= 2 {
      JoinSplit(hostname, '.');
    } else {
      TrimmedIsKept(hostname, parts);
    }
  }

  lemma TrimmedIsKept(hostname: string, parts: seq<string>)
    requires |parts| > 2
    ensures Trimmed(hostname, parts) == Join(KeptLabels(parts), ".")
  {
    var n := |parts|;
    if parts[n - 2] in Prefixes {
      JoinThree(parts[n - 3], parts[n - 2], parts[n - 1]);
      assert parts[n - 3..] == [parts[n - 3], parts[n - 2], parts[n - 1]];
    } else {
      JsSliceLast(parts, 2);
    }
  }

  /** The domain's own labels are the kept labels: at most three, taken
    * from the end of the hostname. */
  lemma DomainLabels(hostname: string)
    ensures var parts := Split(hostname, '.');
      Split(DomainOf(hostname), '.') == KeptLabels(parts)
  {
    var parts := Split(hostname, '.');
    DomainIsKeptLabels(hostname);
    SplitPartsFree(hostname, '.');
    var kept := KeptLabels(parts);
    forall k | 0 <= k < |kept|
      ensures '.' !in kept[k]
    {
      assert kept[k] == parts[|parts| - |kept| + k];
    }
    SplitJoin(kept, '.');
  }

  /** A hostname of at most two labels is returned as it is. */
  lemma ShortHostname(hostname: string)
    requires |Split(hostname, '.')| <= 2
    ensures DomainOf(hostname) == hostname
  {
  }

  /** Behind `com`, `co`, `org`, `net`, `gov` or `edu` the last three labels
    * are kept; behind any other second-level label the last two. */
  lemma LongHostname(hostname: string)
    requires |Split(hostname, '.')| > 2
    ensures var parts := Split(hostname, '.');
      var n := |parts|;
      Split(DomainOf(hostname), '.') == if parts[n - 2] in Prefixes then parts[n - 3..] else parts[n - 2..]
  {
    DomainLabels(hostname);
  }

  /** The domain is a label-aligned suffix of the hostname: the hostname
    * itself, or what follows one of its dots. */
  lemma DomainIsSuffix(hostname: string)
    ensures LabelSuffix(hostname, DomainOf(hostname))
  {
    var parts := Split(hostname, '.');
    DomainIsKeptLabels(hostname);
    JoinSplit(hostname, '.');
    assert "." == ['.'];
    var h, d := Join(parts, "."), Join(KeptLabels(parts), ".");
    assert h == hostname && d == DomainOf(hostname);
    KeptIsSuffix(parts);
  }

  /** `d` is `h`, or what follows one of the dots of `h`. */
  predicate LabelSuffix(h: string, d: string)
  {
    d == h || (|d| < |h| && h[|h| - |d| - 1..] == "." + d)
  }

  lemma KeptIsSuffix(parts: seq<string>)
    requires |parts| >= 1
    ensures LabelSuffix(Join(parts, "."), Join(KeptLabels(parts), "."))
  {
    var kept := KeptLabels(parts);
    if |kept| < |parts| {
      JoinedSuffix(parts, |parts| - |kept|);
    } else {
      assert kept == parts[0..] == parts;
    }
  }

  lemma JoinedSuffix(parts: seq<string>, m: nat)
    requires 0 < m < |parts|
    ensures LabelSuffix(Join(parts, "."), Join(parts[m..], "."))
  {
    assert parts == parts[..m] + parts[m..];
    JoinAppend(parts[..m], parts[m..], ".");
    DotSuffix(Join(parts[..m], "."), Join(parts[m..], "."));
  }

  lemma DotSuffix(f: string, d: string)
    ensures LabelSuffix(f + "." + d, d)
  {
    var h := f + "." + d;
    assert h[|f|..] == "." + d;
  }

  /** `toURL` yields `null` for an empty string and for any value that is
    * neither a string nor a `URL`, and so does `extractDomain`. */
  lemma NullInputs(parse: string -> Option<string>)
    ensures ExtractDomain(StringValue(""), parse).None?
    ensures ExtractDomain(OtherValue, parse).None?
  {
  }

  /** A string the URL parser rejects, or one whose hostname is empty
    * (`"http://"`), yields `null`. */
  lemma UnparseableString(s: string, parse: string -> Option<string>)
    requires parse(s).None? || parse(s) == Some("")
    ensures ExtractDomain(StringValue(s), parse).None?
  {
  }
}
