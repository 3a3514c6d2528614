/** The bracketed character class of a rewrite-rule regular expression,
    read the way PCRE reads a class body without negation: `x-y` is a range,
    a backslash makes the next character literal, anything else stands for
    itself. Only these three forms occur in the router's patterns. */
module CharClass {

  datatype ClassItem = Single(c: char) | Range(lo: char, hi: char)

  /** The items of a class body, left to right. */
  function Parse(src: string): (r: seq<ClassItem>)
    ensures |r| <= |src|
    decreases |src|
  {
    if |src| == 0 then []
    else if src[0] == '\\' && |src| >= 2 then [Single(src[1])] + Parse(src[2..])
    else if |src| >= 3 && src[1] == '-' then [Range(src[0], src[2])] + Parse(src[3..])
    else [Single(src[0])] + Parse(src[1..])
  }

  predicate ItemMatches(it: ClassItem, c: char) {
    match it
    case Single(x) => c == x
    case Range(lo, hi) => lo <= c <= hi
  }

  /** `c` is matched by the class whose body is `src`. */
  predicate Matches(src: string, c: char) {
    exists k :: 0 <= k < |Parse(src)| && ItemMatches(Parse(src)[k], c)
  }

  predicate IsAsciiLetter(c: char) {
    'a' <= c <= 'z' || 'A' <= c <= 'Z'
  }

  predicate IsDigit(c: char) {
    '0' <= c <= '9'
  }

  /** Letters, digits, '-' and '_': the characters of a plain name. */
  predicate IsWordChar(c: char) {
    IsAsciiLetter(c) || IsDigit(c) || c == '-' || c == '_'
  }

  /** A non-empty name made of word characters only: safe inside a regex,
      a query string and a URL path without any escaping. */
  predicate PlainName(s: string) {
    |s| > 0 && forall i :: 0 <= i < |s| ==> IsWordChar(s[i])
  }

  /** A plain name holds none of the characters that delimit paths, query
      strings and rule targets. */
  lemma PlainNameExcludes(s: string)
    requires PlainName(s)
    ensures '/' !in s && '&' !in s && '=' !in s && '?' !in s && '$' !in s
  {
    forall i | 0 <= i < |s| ensures s[i] !in {'/', '&', '=', '?', '$'} {
      assert IsWordChar(s[i]);
    }
  }

  /** The body of `[a-zA-Z\-0-9_]`, the page class of the 1.3 rewrite rule. */
  const WordClass: string := "a-zA-Z\\-0-9_"

  /** The body of `[a-zA-Z\-0-9]`, the page class of the 1.2 rewrite rule. */
  const NoUnderscoreClass: string := "a-zA-Z\\-0-9"

  lemma ParseNoUnderscoreClass()
    ensures Parse(NoUnderscoreClass) == [Range('a', 'z'), Range('A', 'Z'), Single('-'), Range('0', '9')]
  {
    var s := NoUnderscoreClass;
    assert s[3..] == "A-Z\\-0-9";
    assert s[3..][3..] == "\\-0-9";
    assert s[3..][3..][2..] == "0-9";
    assert s[3..][3..][2..][3..] == "";
  }

  lemma ParseWordClass()
    ensures Parse(WordClass) == [Range('a', 'z'), Range('A', 'Z'), Single('-'), Range('0', '9'), Single('_')]
  {
    var s := WordClass;
    assert s[3..] == "A-Z\\-0-9_";
    assert s[3..][3..] == "\\-0-9_";
    assert s[3..][3..][2..] == "0-9_";
    assert s[3..][3..][2..][3..] == "_";
    assert s[3..][3..][2..][3..][1..] == "";
  }

  /** The 1.2 class admits exactly ASCII letters, digits and '-'. */
  lemma NoUnderscoreClassMeaning(c: char)
    ensures Matches(NoUnderscoreClass, c) <==> IsAsciiLetter(c) || IsDigit(c) || c == '-'
  {
    ParseNoUnderscoreClass();
    var items := Parse(NoUnderscoreClass);
    if IsAsciiLetter(c) || IsDigit(c) || c == '-' {
      if 'a' <= c <= 'z' {
        assert ItemMatches(items[0], c);
      } else if 'A' <= c <= 'Z' {
        assert ItemMatches(items[1], c);
      } else if c == '-' {
        assert ItemMatches(items[2], c);
      } else {
        assert ItemMatches(items[3], c);
      }
    }
  }

  /** The 1.3 class admits exactly ASCII letters, digits, '-' and '_'. */
  lemma WordClassMeaning(c: char)
    ensures Matches(WordClass, c) <==> IsAsciiLetter(c) || IsDigit(c) || c == '-' || c == '_'
  {
    ParseWordClass();
    var items := Parse(WordClass);
    if IsAsciiLetter(c) || IsDigit(c) || c == '-' || c == '_' {
      if 'a' <= c <= 'z' {
        assert ItemMatches(items[0], c);
      } else if 'A' <= c <= 'Z' {
        assert ItemMatches(items[1], c);
      } else if c == '-' {
        assert ItemMatches(items[2], c);
      } else if c == '_' {
        assert ItemMatches(items[4], c);
      } else {
        assert ItemMatches(items[3], c);
      }
    }
  }
}
