/** The PHP and WordPress string built-ins the router relies on, on `string`
    as a sequence of characters: truthiness, `rtrim`/`ltrim`/`trim` with a
    character list, `untrailingslashit`, `basename` and `strtolower`. */
module PhpStrings {
  import opened Wrappers

  /** PHP truthiness of a string: every string except "" and "0" is true. */
  predicate Truthy(s: string) {
    s != "" && s != "0"
  }

  /** PHP truthiness of a nullable string: `null` is false. */
  predicate TruthyOpt(s: Option<string>) {
    s.Some? && Truthy(s.value)
  }

  /** Every character of `s` belongs to `cs`. */
  predicate AllIn(s: string, cs: set<char>) {
    forall i :: 0 <= i < |s| ==> s[i] in cs
  }

  /** No character of `s` belongs to `cs`. */
  predicate NoneIn(s: string, cs: set<char>) {
    forall i :: 0 <= i < |s| ==> s[i] !in cs
  }

  /** `r` is the slice of `s` starting at `i`, with nothing but `cs`
      characters before and after it. */
  predicate StripsAt(s: string, r: string, cs: set<char>, i: int) {
    0 <= i <= |s| - |r| && r == s[i..i + |r|] && AllIn(s[..i], cs) && AllIn(s[i + |r|..], cs)
  }

  /** `r` is `s` with a run of `cs` characters removed at each end. */
  ghost predicate StripsTo(s: string, r: string, cs: set<char>) {
    exists i :: StripsAt(s, r, cs, i)
  }

  /** `rtrim($s, cs)`: the longest prefix of `s` that does not end in `cs`. */
  function TrimRight(s: string, cs: set<char>): (r: string)
    ensures r <= s
    ensures AllIn(s[|r|..], cs)
    ensures |r| > 0 ==> r[|r| - 1] !in cs
    decreases |s|
  {
    if |s| > 0 && s[|s| - 1] in cs then TrimRight(s[..|s| - 1], cs) else s
  }

  /** `ltrim($s, cs)`: the longest suffix of `s` that does not start in `cs`. */
  function TrimLeft(s: string, cs: set<char>): (r: string)
    ensures |r| <= |s| && r == s[|s| - |r|..]
    ensures AllIn(s[..|s| - |r|], cs)
    ensures |r| > 0 ==> r[0] !in cs
    decreases |s|
  {
    if |s| > 0 && s[0] in cs then TrimLeft(s[1..], cs) else s
  }

  /** `trim($s, cs)`: strips `cs` characters from both ends, keeping the
      middle of `s` intact. */
  function Trim(s: string, cs: set<char>): (r: string)
    ensures |r| > 0 ==> r[0] !in cs && r[|r| - 1] !in cs
    ensures StripsTo(s, r, cs)
  {
    var t := TrimLeft(s, cs);
    var r := TrimRight(t, cs);
    TrimSlice(s, t, r, cs);
    r
  }

  /** Left trimming then right trimming leaves a slice of `s` with only `cs`
      characters around it, and no `cs` character at either of its ends. */
  lemma TrimSlice(s: string, t: string, r: string, cs: set<char>)
    requires |t| <= |s| && t == s[|s| - |t|..] && AllIn(s[..|s| - |t|], cs) && (|t| > 0 ==> t[0] !in cs)
    requires r <= t && AllIn(t[|r|..], cs) && (|r| > 0 ==> r[|r| - 1] !in cs)
    ensures StripsTo(s, r, cs)
    ensures |r| > 0 ==> r[0] !in cs && r[|r| - 1] !in cs
  {
    var i := |s| - |t|;
    assert r == s[i..i + |r|];
    assert s[i + |r|..] == t[|r|..];
    if |r| > 0 {
      assert r[0] == t[0];
    }
    assert StripsAt(s, r, cs, i);
  }

  /** Trimming a string that neither starts nor ends in `cs` leaves it alone. */
  lemma TrimOfTrimmed(s: string, cs: set<char>)
    requires |s| > 0 ==> s[0] !in cs && s[|s| - 1] !in cs
    ensures Trim(s, cs) == s
  {
  }

  /** One `cs` character on each side of a trimmed string is removed again. */
  lemma TrimSurrounded(x: string, c: char, cs: set<char>)
    requires |x| > 0 && x[0] !in cs && x[|x| - 1] !in cs && c in cs
    ensures Trim([c] + x + [c], cs) == x
  {
    var s := [c] + x + [c];
    assert s[1..] == x + [c];
    assert TrimLeft(x + [c], cs) == x + [c];
    assert (x + [c])[..|x|] == x;
    assert TrimRight(x, cs) == x;
  }

  /** `trim` is idempotent. */
  lemma TrimIdempotent(s: string, cs: set<char>)
    ensures Trim(Trim(s, cs), cs) == Trim(s, cs)
  {
    TrimOfTrimmed(Trim(s, cs), cs);
  }

  /** WordPress `untrailingslashit`: removes every trailing '/' and '\'. */
  function Untrailingslashit(s: string): (r: string)
    ensures r <= s
    ensures AllIn(s[|r|..], {'/', '\\'})
    ensures |r| > 0 ==> r[|r| - 1] != '/' && r[|r| - 1] != '\\'
  {
    TrimRight(s, {'/', '\\'})
  }

  /** The part of `s` after its last '/', or all of `s` when it has none. */
  function LastSegment(s: string): (r: string)
    ensures NoneIn(r, {'/'})
    ensures |r| <= |s| && r == s[|s| - |r|..]
    ensures |r| < |s| ==> s[|s| - |r| - 1] == '/'
    decreases |s|
  {
    if |s| == 0 || s[|s| - 1] == '/' then "" else LastSegment(s[..|s| - 1]) + [s[|s| - 1]]
  }

  /** A separator-free string is its own last segment. */
  lemma {:induction false} LastSegmentOfPlain(y: string)
    requires NoneIn(y, {'/'})
    ensures LastSegment(y) == y
    decreases |y|
  {
    if |y| > 0 {
      LastSegmentOfPlain(y[..|y| - 1]);
      assert y == y[..|y| - 1] + [y[|y| - 1]];
    }
  }

  /** The last segment is whatever follows the last separator. */
  lemma {:induction false} LastSegmentAfter(x: string, y: string)
    requires NoneIn(y, {'/'})
    ensures LastSegment(x + "/" + y) == y
    decreases |y|
  {
    var s := x + "/" + y;
    if |y| == 0 {
      assert s[|s| - 1] == '/';
    } else {
      var y' := y[..|y| - 1];
      assert s[..|s| - 1] == x + "/" + y';
      LastSegmentAfter(x, y');
      assert y == y' + [y[|y| - 1]];
    }
  }

  /** `s` is `a + r + b` where `a` is empty or ends in a separator and `b`
      holds nothing but separators. */
  predicate BasenameSplitsAt(s: string, a: string, r: string, b: string) {
    s == a + r + b && (|a| == 0 || a[|a| - 1] == '/') && AllIn(b, {'/'})
  }

  /** PHP `basename($s)` with '/' as the only separator: trailing separators
      are ignored and the last remaining component is returned. The result
      is the unique separator-free piece of `s` that is followed only by
      separators and preceded by nothing or a separator. */
  function Basename(s: string): (r: string)
    ensures NoneIn(r, {'/'})
    ensures r == "" <==> AllIn(s, {'/'})
    ensures exists a, b :: BasenameSplitsAt(s, a, r, b)
  {
    var t := TrimRight(s, {'/'});
    var r := LastSegment(t);
    BasenameSplit(s, t, r);
    BasenameEmpty(s, t, r);
    r
  }

  /** The split of `s` around its basename, proved apart from `Basename`. */
  lemma BasenameSplit(s: string, t: string, r: string)
    requires t <= s && AllIn(s[|t|..], {'/'})
    requires |r| <= |t| && r == t[|t| - |r|..] && (|r| < |t| ==> t[|t| - |r| - 1] == '/')
    ensures exists a, b :: BasenameSplitsAt(s, a, r, b)
  {
    var a := t[..|t| - |r|];
    var b := s[|t|..];
    assert |a| == 0 || a[|a| - 1] == '/' by {
      if |a| > 0 {
        assert a[|a| - 1] == t[|t| - |r| - 1];
      }
    }
    assert AllIn(b, {'/'});
    assert s == a + r + b by {
      assert s == t + b;
      assert t == a + r;
    }
    assert BasenameSplitsAt(s, a, r, b);
  }

  /** The basename is empty exactly when `s` is nothing but separators. */
  lemma BasenameEmpty(s: string, t: string, r: string)
    requires t == TrimRight(s, {'/'}) && r == LastSegment(t)
    ensures r == "" <==> AllIn(s, {'/'})
  {
    if r == "" && |t| == 0 {
      assert s[|t|..] == s;
    }
  }

  /** A name without separators is its own basename. */
  lemma BasenameOfPlain(s: string)
    requires NoneIn(s, {'/'})
    ensures Basename(s) == s
  {
    assert TrimRight(s, {'/'}) == s;
    LastSegmentOfPlain(s);
  }

  /** `basename` is idempotent. */
  lemma BasenameIdempotent(s: string)
    ensures Basename(Basename(s)) == Basename(s)
  {
    BasenameOfPlain(Basename(s));
  }

  /** A path-traversal attempt keeps only its last component. */
  lemma BasenameDropsTraversal()
    ensures Basename("../../etc/passwd") == "passwd"
  {
    var s := "../../etc/passwd";
    assert TrimRight(s, {'/'}) == s;
    assert s == "../../etc" + "/" + "passwd";
    LastSegmentAfter("../../etc", "passwd");
  }

  /** ASCII upper-case letters map to lower case; everything else is kept. */
  function LowerChar(c: char): char {
    if 'A' <= c <= 'Z' then (c as int + 32) as char else c
  }

  /** `strtolower` as PHP 8.2 and later define it: byte-wise ASCII
      lower-casing, whatever the locale (earlier versions follow the locale,
      which this assumes to be "C"). */
  function ToLower(s: string): (r: string)
    ensures |r| == |s|
    ensures forall i :: 0 <= i < |s| ==> r[i] == LowerChar(s[i])
  {
    if |s| == 0 then "" else [LowerChar(s[0])] + ToLower(s[1..])
  }

  /** Lower-casing leaves no upper-case ASCII letter and is idempotent. */
  lemma ToLowerIdempotent(s: string)
    ensures forall i :: 0 <= i < |s| ==> !('A' <= ToLower(s)[i] <= 'Z')
    ensures ToLower(ToLower(s)) == ToLower(s)
  {
  }

  /** Lower-casing does not change PHP truthiness. */
  lemma ToLowerTruthy(s: string)
    ensures Truthy(ToLower(s)) <==> Truthy(s)
  {
    if s == "0" {
      assert ToLower(s) == "0";
    }
    if ToLower(s) == "0" {
      assert s[0] == '0';
      assert s == "0";
    }
  }

  /** Case-insensitive ASCII equality, stated character by character. */
  predicate EqualsIgnoreCase(a: string, b: string) {
    |a| == |b| && forall i :: 0 <= i < |a| ==> a[i] == b[i] || LowerChar(a[i]) == LowerChar(b[i])
  }
}
