/** The parts of the host framework the router leans on, as this model
    assumes they behave: reading a query variable, turning a matched rewrite
    rule into query variables, and trimming the request path before rules
    are matched. Nothing of the host's own code is reproduced here; these
    definitions only serve to state what the router's strings mean. */
module WordPressHost {
  import opened Wrappers
  import opened PhpStrings

  /** `get_query_var($name)`: the variable's value, or '' when it is unset. */
  function GetQueryVar(vars: map<string, string>, name: string): (r: string)
    ensures name in vars ==> r == vars[name]
    ensures name !in vars ==> r == ""
  {
    if name in vars then vars[name] else ""
  }

  /** Every occurrence of `pat` in `s`, scanned left to right, replaced by
      `rep`: how `$matches[1]` in a rule's target receives the captured text
      (WordPress substitutes its `urlencode`, which leaves plain names
      unchanged). */
  function ReplaceAll(s: string, pat: string, rep: string): string
    requires |pat| > 0
    decreases |s|
  {
    if |s| < |pat| then s
    else if s[..|pat|] == pat then rep + ReplaceAll(s[|pat|..], pat, rep)
    else [s[0]] + ReplaceAll(s[1..], pat, rep)
  }

  /** Text in which the first character of `pat` never occurs passes through
      `ReplaceAll` unchanged, also in front of further text. */
  lemma {:induction false} ReplaceAllSkips(a: string, b: string, pat: string, rep: string)
    requires |pat| > 0 && pat[0] !in a
    ensures ReplaceAll(a + b, pat, rep) == a + ReplaceAll(b, pat, rep)
    decreases |a|
  {
    if |a| == 0 {
      assert a + b == b;
    } else {
      var s := a + b;
      ReplaceAllStep(s, pat, rep);
      assert s[1..] == a[1..] + b;
      ReplaceAllSkips(a[1..], b, pat, rep);
      assert a == [a[0]] + a[1..];
    }
  }

  /** A character that cannot start `pat` is copied as it is. */
  lemma ReplaceAllStep(s: string, pat: string, rep: string)
    requires |pat| > 0 && |s| > 0 && s[0] != pat[0]
    ensures ReplaceAll(s, pat, rep) == [s[0]] + ReplaceAll(s[1..], pat, rep)
  {
    if |s| < |pat| {
      assert ReplaceAll(s[1..], pat, rep) == s[1..];
      assert s == [s[0]] + s[1..];
    } else {
      assert s[..|pat|][0] != pat[0];
    }
  }

  /** `s` split at the first `sep`: the text before it, and the text after
      it when `sep` occurs at all. */
  function SplitFirst(s: string, sep: char): (r: (string, Option<string>))
    ensures r.1.None? ==> r.0 == s && sep !in s
    ensures r.1.Some? ==> s == r.0 + [sep] + r.1.value && sep !in r.0
    decreases |s|
  {
    if |s| == 0 then ("", None)
    else if s[0] == sep then ("", Some(s[1..]))
    else
      var (h, t) := SplitFirst(s[1..], sep);
      ([s[0]] + h, t)
  }

  /** Splitting where the separator first occurs, once `a` has none. */
  lemma {:induction false} SplitFirstAt(a: string, b: string, sep: char)
    requires sep !in a
    ensures SplitFirst(a + [sep] + b, sep) == (a, Some(b))
    decreases |a|
  {
    var s := a + [sep] + b;
    if |a| == 0 {
      assert s[1..] == b;
    } else {
      assert s[0] == a[0];
      assert s[1..] == a[1..] + [sep] + b;
      SplitFirstAt(a[1..], b, sep);
      assert a == [a[0]] + a[1..];
    }
  }

  /** One `key=value` pair of a query string as a map: a missing '=' gives
      the value '', an empty key gives nothing. */
  function PairMap(pair: string): map<string, string> {
    var (key, value) := SplitFirst(pair, '=');
    if key == "" then map[] else map[key := if value.Some? then value.value else ""]
  }

  /** `parse_str` on a query string: `&`-separated pairs, later pairs
      overriding earlier ones. */
  function ParseQuery(q: string): map<string, string>
    decreases |q|
  {
    match SplitFirst(q, '&').1
    case None => PairMap(q)
    case Some(rest) => PairMap(SplitFirst(q, '&').0) + ParseQuery(rest)
  }

  /** A query string with one `&` splits into its first pair and the rest. */
  lemma ParseQueryCons(a: string, b: string)
    requires '&' !in a
    ensures ParseQuery(a + ['&'] + b) == PairMap(a) + ParseQuery(b)
  {
    SplitFirstAt(a, b, '&');
  }

  /** A query string without `&` is a single pair. */
  lemma ParseQuerySingle(a: string)
    requires '&' !in a
    ensures ParseQuery(a) == PairMap(a)
  {
  }

  /** `key=value` with no '=' in a non-empty key maps the key to the value. */
  lemma PairMapOf(key: string, value: string)
    requires '=' !in key && key != ""
    ensures PairMap(key + ['='] + value) == map[key := value]
  {
    SplitFirstAt(key, value, '=');
  }

  /** The query variables of a rewrite target `index.php?...`. */
  function QueryVarsOf(target: string): map<string, string> {
    match SplitFirst(target, '?').1
    case None => map[]
    case Some(q) => ParseQuery(q)
  }

  /** The request path rewrite rules are matched against: the URL path with
      its leading and trailing '/' removed. */
  function RequestPath(urlPath: string): (r: string)
    ensures StripsTo(urlPath, r, {'/'})
    ensures |r| > 0 ==> r[0] != '/' && r[|r| - 1] != '/'
  {
    Trim(urlPath, {'/'})
  }
}
