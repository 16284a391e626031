/**
 * Python `str` operations used by the core, over `seq<char>`.
 * Case mapping, digit classes and whitespace are those of ASCII.
 */
module Text {
  import opened Wrappers

  predicate IsUpper(c: char) { 'A' <= c <= 'Z' }
  predicate IsLower(c: char) { 'a' <= c <= 'z' }
  predicate IsDigit(c: char) { '0' <= c <= '9' }

  /** The characters `str.strip()` removes when called without an argument. */
  const Whitespace: set<char> := {' ', '\t', '\n', '\r', '\U{B}', '\U{C}', '\U{1C}', '\U{1D}', '\U{1E}', '\U{1F}',
    '\U{85}', '\U{A0}', '\U{1680}', '\U{2000}', '\U{2001}', '\U{2002}', '\U{2003}', '\U{2004}', '\U{2005}',
    '\U{2006}', '\U{2007}', '\U{2008}', '\U{2009}', '\U{200A}', '\U{2028}', '\U{2029}', '\U{202F}',
    '\U{205F}', '\U{3000}'}

  function LowerChar(c: char): (r: char)
    ensures !IsUpper(r)
    ensures IsUpper(c) ==> r as int == c as int + 32
    ensures !IsUpper(c) ==> r == c
  {
    if IsUpper(c) then (c as int + 32) as char else c
  }

  function UpperChar(c: char): (r: char)
    ensures !IsLower(r)
    ensures IsLower(c) ==> r as int == c as int - 32
    ensures !IsLower(c) ==> r == c
  {
    if IsLower(c) then (c as int - 32) as char else c
  }

  /** `str.lower()` */
  function Lower(s: string): (r: string)
    ensures |r| == |s|
    ensures forall i :: 0 <= i < |s| ==> r[i] == LowerChar(s[i])
  {
    seq(|s|, i requires 0 <= i < |s| => LowerChar(s[i]))
  }

  /** `str.upper()` */
  function Upper(s: string): (r: string)
    ensures |r| == |s|
    ensures forall i :: 0 <= i < |s| ==> r[i] == UpperChar(s[i])
  {
    seq(|s|, i requires 0 <= i < |s| => UpperChar(s[i]))
  }

  /** `str.capitalize()`: the first character upper-case, all others lower-case. */
  function Capitalize(s: string): (r: string)
    ensures |r| == |s|
    ensures |s| > 0 ==> r[0] == UpperChar(s[0])
    ensures forall i :: 0 < i < |s| ==> r[i] == LowerChar(s[i])
  {
    if s == [] then [] else [UpperChar(s[0])] + Lower(s[1..])
  }

  lemma LowerIdempotent(s: string)
    ensures Lower(Lower(s)) == Lower(s)
  {
  }

  /** A text without upper-case letters is its own lower case. */
  lemma LowerNoUpper(s: string)
    requires forall i :: 0 <= i < |s| ==> !IsUpper(s[i])
    ensures Lower(s) == s
  {
  }

  /** Lower-casing introduces no characters other than lower-case letters. */
  lemma LowerChars(s: string, x: char)
    requires x in Lower(s)
    ensures !IsUpper(x)
    ensures !IsLower(x) ==> x in s
  {
    var i :| 0 <= i < |s| && Lower(s)[i] == x;
    assert s[i] in s;
  }

  /** `s.startswith(p)` */
  predicate StartsWith(s: string, p: string) {
    |p| <= |s| && s[..|p|] == p
  }

  /** `s.endswith(p)` */
  predicate EndsWith(s: string, p: string) {
    |p| <= |s| && s[|s| - |p|..] == p
  }

  /** `s.find(p)` for a non-empty `p`: the first index at which `p` occurs. */
  function Find(s: string, p: string): (r: Option<nat>)
    requires |p| > 0
    ensures r.Some? ==> r.value + |p| <= |s| && StartsWith(s[r.value..], p)
    ensures r.Some? ==> forall j :: 0 <= j < r.value ==> !StartsWith(s[j..], p)
    ensures r.None? <==> forall j :: 0 <= j <= |s| ==> !StartsWith(s[j..], p)
    decreases |s|
  {
    if |s| < |p| then None
    else if StartsWith(s, p) then
      assert s[0..] == s;
      Some(0)
    else
      assert s[0..] == s;
      assert forall j :: 1 <= j <= |s| ==> s[j..] == s[1..][j - 1..];
      match Find(s[1..], p)
      case None => None
      case Some(i) => Some(i + 1)
  }

  /** Python's `p in s` for a non-empty `p`. */
  predicate Contains(s: string, p: string)
    requires |p| > 0
  {
    Find(s, p).Some?
  }

  /** The text after the first occurrence of `sep`, if there is one. */
  function After(s: string, sep: string): (r: Option<string>)
    requires |sep| > 0
    ensures r.Some? <==> Contains(s, sep)
    ensures r.Some? ==> EndsWith(s, r.value)
  {
    match Find(s, sep)
    case None => None
    case Some(i) => Some(s[i + |sep|..])
  }

  /** `s.split(sep)[0]`: the text before the first occurrence of `sep`, or all of `s`. */
  function Before(s: string, sep: string): (r: string)
    requires |sep| > 0
    ensures StartsWith(s, r)
    ensures !Contains(r, sep)
    ensures r == s || StartsWith(s[|r|..], sep)
  {
    match Find(s, sep)
    case None => s
    case Some(i) =>
      NoMatchInPrefix(s, sep, i);
      s[..i]
  }

  /** A prefix of `s` that ends before the first match of `sep` holds no match. */
  lemma NoMatchInPrefix(s: string, sep: string, i: nat)
    requires |sep| > 0 && i <= |s|
    requires forall j :: 0 <= j < i ==> !StartsWith(s[j..], sep)
    ensures forall j :: 0 <= j <= i ==> !StartsWith(s[..i][j..], sep)
  {
    forall j | 0 <= j <= i ensures !StartsWith(s[..i][j..], sep) {
      if |sep| <= i - j {
        assert s[..i][j..][..|sep|] == s[j..][..|sep|];
      }
    }
  }

  /** A match at `k` with none before it is what `find` reports. */
  lemma FindAt(s: string, p: string, k: nat)
    requires |p| > 0 && k + |p| <= |s| && StartsWith(s[k..], p)
    requires forall j :: 0 <= j < k ==> !StartsWith(s[j..], p)
    ensures Find(s, p) == Some(k)
  {
    assert Find(s, p).Some?;
  }

  /** When the first `sep` of `pre + sep` is its last one, the text after the first `sep` of `pre + sep + rest` is `rest`. */
  lemma AfterFirst(pre: string, sep: string, rest: string)
    requires |sep| > 0 && Find(pre + sep, sep) == Some(|pre|)
    ensures After(pre + sep + rest, sep) == Some(rest)
  {
    var t := pre + sep;
    var s := t + rest;
    forall j | 0 <= j <= |pre| ensures StartsWith(s[j..], sep) == StartsWith(t[j..], sep) {
      MatchWithinPrefix(t, rest, j, sep);
    }
    FindAt(s, sep, |pre|);
    assert s[|pre| + |sep|..] == rest;
  }

  /** A match that ends inside `t` is the same in `t + u`. */
  lemma MatchWithinPrefix(t: string, u: string, j: nat, sep: string)
    requires j + |sep| <= |t|
    ensures StartsWith((t + u)[j..], sep) == StartsWith(t[j..], sep)
  {
    assert (t + u)[j..][..|sep|] == t[j..][..|sep|];
  }

  /** A text that starts with `p` contains it. */
  lemma ContainsPrefix(p: string, s: string)
    requires |p| > 0
    ensures Contains(p + s, p)
  {
    assert (p + s)[0..][..|p|] == p;
  }

  /**
   * The first `sep` of `a + x + [c] + sep` is the last one, when no character of `a`
   * and not `c` belong to `sep` and `x` does not contain it.
   */
  lemma BeforeLateSep(a: string, x: string, c: char, sep: string)
    requires |sep| > 0 && !Contains(x, sep) && c !in sep
    requires forall j :: 0 <= j < |a| ==> a[j] !in sep
    ensures Before(a + x + [c] + sep, sep) == a + x + [c]
  {
    var s := a + x + [c] + sep;
    var k := |a| + |x| + 1;
    assert s[k..] == sep;
    forall j | 0 <= j < k ensures !StartsWith(s[j..], sep) {
      if j < |a| {
        assert s[j..][0] == a[j];
      } else if j + |sep| <= |a| + |x| {
        assert s[j..][..|sep|] == x[j - |a|..][..|sep|];
      } else {
        assert s[j..][|a| + |x| - j] == c;
      }
    }
    FindAt(s, sep, k);
    assert s[..k] == a + x + [c];
  }

  /** `s.split(sep)[1]`: the text between the first and second occurrence of `sep`. */
  function SecondField(s: string, sep: string): (r: Option<string>)
    requires |sep| > 0
    ensures r.Some? <==> Contains(s, sep)
    ensures r.Some? ==> !Contains(r.value, sep)
  {
    match After(s, sep)
    case None => None
    case Some(rest) => Some(Before(rest, sep))
  }

  /** `s.replace(p, r)` for a non-empty `p`: a left-to-right scan replacing non-overlapping occurrences. */
  function ReplaceAll(s: string, p: string, r: string): string
    requires |p| > 0
    decreases |s|
  {
    if |s| < |p| then s
    else if StartsWith(s, p) then r + ReplaceAll(s[|p|..], p, r)
    else [s[0]] + ReplaceAll(s[1..], p, r)
  }

  /** Replacing a pattern by itself changes nothing. */
  lemma {:induction false} ReplaceAllSelf(s: string, p: string)
    requires |p| > 0
    ensures ReplaceAll(s, p, p) == s
    decreases |s|
  {
    if |s| < |p| {
    } else if StartsWith(s, p) {
      ReplaceAllSelf(s[|p|..], p);
      assert s == s[..|p|] + s[|p|..];
    } else {
      ReplaceAllSelf(s[1..], p);
      assert s == [s[0]] + s[1..];
    }
  }

  /** Replacing a pattern that does not occur changes nothing. */
  lemma {:induction false} ReplaceAllAbsent(s: string, p: string, r: string)
    requires |p| > 0
    requires !Contains(s, p)
    ensures ReplaceAll(s, p, r) == s
    decreases |s|
  {
    if |s| >= |p| {
      assert s[0..] == s;
      assert forall j :: 0 <= j <= |s[1..]| ==> s[1..][j..] == s[j + 1..];
      ReplaceAllAbsent(s[1..], p, r);
      assert s == [s[0]] + s[1..];
    }
  }

  /** A single-character replacement works piece by piece. */
  lemma {:induction false} ReplaceCharConcat(a: string, b: string, c: char, r: string)
    ensures ReplaceAll(a + b, [c], r) == ReplaceAll(a, [c], r) + ReplaceAll(b, [c], r)
    decreases |a|
  {
    if a == [] {
      assert a + b == b;
    } else {
      assert (a + b)[0] == a[0];
      assert (a + b)[1..] == a[1..] + b;
      ReplaceCharConcat(a[1..], b, c, r);
      assert StartsWith(a + b, [c]) == StartsWith(a, [c]);
    }
  }

  /** Replacing a character that does not occur changes nothing. */
  lemma {:induction false} ReplaceCharAbsent(s: string, c: char, r: string)
    requires c !in s
    ensures ReplaceAll(s, [c], r) == s
    decreases |s|
  {
    if s != [] {
      ReplaceCharAbsent(s[1..], c, r);
      assert s == [s[0]] + s[1..];
    }
  }

  /** A single occurrence of a character is replaced and nothing else changes. */
  lemma ReplaceCharOnce(a: string, b: string, c: char, r: string)
    requires c !in a && c !in b
    ensures ReplaceAll(a + [c] + b, [c], r) == a + r + b
  {
    ReplaceCharConcat(a, [c] + b, c, r);
    ReplaceCharAbsent(a, c, r);
    ReplaceCharAbsent(b, c, r);
    assert ([c] + b)[1..] == b;
    assert StartsWith([c] + b, [c]);
    assert a + [c] + b == a + ([c] + b);
  }

  /** Replacing a single character by text that does not contain it leaves no occurrence of it. */
  lemma {:induction false} ReplaceCharRemoves(s: string, c: char, r: string)
    requires c !in r
    ensures c !in ReplaceAll(s, [c], r)
    decreases |s|
  {
    if |s| >= 1 {
      ReplaceCharRemoves(s[1..], c, r);
      if StartsWith(s, [c]) {
        assert s[1..] == s[|[c]|..];
      }
    }
  }

  /** Replacing a single character never introduces characters other than those of `s` and `r`. */
  lemma {:induction false} ReplaceCharChars(s: string, c: char, r: string, x: char)
    requires x in ReplaceAll(s, [c], r)
    ensures (x in s && x != c) || x in r
    decreases |s|
  {
    if |s| >= 1 {
      var rest := ReplaceAll(s[1..], [c], r);
      if StartsWith(s, [c]) {
        assert s[1..] == s[|[c]|..];
        assert ReplaceAll(s, [c], r) == r + rest;
        if x !in r {
          ReplaceCharChars(s[1..], c, r, x);
        }
      } else {
        assert ReplaceAll(s, [c], r) == [s[0]] + rest;
        if x != s[0] {
          ReplaceCharChars(s[1..], c, r, x);
        }
      }
    }
  }

  /** `s.lstrip(chars)` */
  function LStrip(s: string, cs: set<char>): (r: string)
    ensures EndsWith(s, r)
    ensures |r| > 0 ==> r[0] !in cs
    ensures forall i :: 0 <= i < |s| - |r| ==> s[i] in cs
    decreases |s|
  {
    if |s| > 0 && s[0] in cs then LStrip(s[1..], cs) else s
  }

  /** `s.rstrip(chars)` */
  function RStrip(s: string, cs: set<char>): (r: string)
    ensures StartsWith(s, r)
    ensures |r| > 0 ==> r[|r| - 1] !in cs
    ensures forall i :: |r| <= i < |s| ==> s[i] in cs
    decreases |s|
  {
    if |s| > 0 && s[|s| - 1] in cs then RStrip(s[..|s| - 1], cs) else s
  }

  /** `s.strip(chars)`: the characters of the SET `cs` are removed from both ends. */
  function Strip(s: string, cs: set<char>): (r: string)
    ensures |r| > 0 ==> r[0] !in cs && r[|r| - 1] !in cs
    ensures var k := |s| - |LStrip(s, cs)|; k + |r| <= |s| && r == s[k..k + |r|]
  {
    var l := LStrip(s, cs);
    var r := RStrip(l, cs);
    assert r == s[|s| - |l|..|s| - |l| + |r|];
    r
  }

  /** Stripping a leading run of stripped characters. */
  lemma {:induction false} LStripLeading(a: string, b: string, cs: set<char>)
    requires forall i :: 0 <= i < |a| ==> a[i] in cs
    requires |b| > 0 ==> b[0] !in cs
    ensures LStrip(a + b, cs) == b
    decreases |a|
  {
    if a == [] {
      assert a + b == b;
    } else {
      assert (a + b)[1..] == a[1..] + b;
      LStripLeading(a[1..], b, cs);
    }
  }

  /** Stripping a trailing run of stripped characters. */
  lemma {:induction false} RStripTrailing(a: string, b: string, cs: set<char>)
    requires forall i :: 0 <= i < |b| ==> b[i] in cs
    requires |a| > 0 ==> a[|a| - 1] !in cs
    ensures RStrip(a + b, cs) == a
    decreases |b|
  {
    if b == [] {
      assert a + b == a;
    } else {
      assert (a + b)[..|a + b| - 1] == a + b[..|b| - 1];
      RStripTrailing(a, b[..|b| - 1], cs);
    }
  }

  lemma StripNoop(s: string, cs: set<char>)
    requires |s| > 0 ==> s[0] !in cs && s[|s| - 1] !in cs
    ensures Strip(s, cs) == s
  {
  }

  /** Stripping a subset of the characters already stripped changes nothing: `strip` is idempotent. */
  lemma StripSubsetNoop(s: string, a: set<char>, b: set<char>)
    requires b <= a
    ensures Strip(Strip(s, a), b) == Strip(s, a)
  {
    StripNoop(Strip(s, a), b);
  }

  /** The first line of `a + "\n" + b` is `a` when `a` holds no line break. */
  lemma BeforeLineBreak(a: string, b: string)
    requires '\n' !in a
    ensures Before(a + "\n" + b, "\n") == a
  {
    var s := a + "\n" + b;
    assert StartsWith(s[|a|..], "\n");
    forall j | 0 <= j < |a| ensures !StartsWith(s[j..], "\n") {
      assert s[j..][0] == a[j];
    }
    assert Find(s, "\n") == Some(|a|);
    assert s[..|a|] == a;
  }

  /** `str` of a list of strings, as Python prints it: each item's `repr`, joined by ", ". */
  function ListRepr(l: seq<string>): string {
    "[" + Join(seq(|l|, i requires 0 <= i < |l| => StrRepr(l[i])), ", ") + "]"
  }

  /**
   * `repr` of a string: double quotes when it holds a single quote and no double quote,
   * single quotes otherwise, and its characters escaped for that quote.
   */
  function StrRepr(s: string): (r: string)
    ensures |r| >= 2 && r[0] == r[|r| - 1] == Quote(s)
  {
    [Quote(s)] + ReprBody(s, Quote(s)) + [Quote(s)]
  }

  function Quote(s: string): char {
    if '\'' in s && '"' !in s then '"' else '\''
  }

  /** A character that `repr` writes as it is when `q` is the quote. */
  predicate PlainChar(c: char, q: char) {
    c != q && c != '\\' && c >= ' ' && c != '\U{7F}'
  }

  /** The escaped characters of a string inside the quote `q`. */
  function ReprBody(s: string, q: char): (r: string)
    ensures |r| >= |s|
    decreases |s|
  {
    if s == [] then [] else ReprChar(s[0], q) + ReprBody(s[1..], q)
  }

  /**
   * One character inside the quote `q`: the quote and the backslash behind a backslash,
   * tab, line feed and carriage return by their letters, other control characters in
   * hexadecimal, anything else as it is.
   */
  function ReprChar(c: char, q: char): (r: string)
    ensures PlainChar(c, q) <==> r == [c]
    ensures |r| >= 1 && (r[0] == '\\' <==> !PlainChar(c, q))
  {
    if c == q || c == '\\' then ['\\', c]
    else if c == '\t' then "\\t"
    else if c == '\n' then "\\n"
    else if c == '\r' then "\\r"
    else if c < ' ' || c == '\U{7F}' then "\\x" + [HexDigit(c as int / 16), HexDigit(c as int % 16)]
    else [c]
  }

  function HexDigit(n: int): char
    requires 0 <= n < 16
  {
    if n < 10 then ('0' as int + n) as char else ('a' as int + n - 10) as char
  }

  /** A string of plain characters is written as it is between the quotes. */
  lemma {:induction false} ReprBodyPlain(s: string, q: char)
    requires forall i :: 0 <= i < |s| ==> PlainChar(s[i], q)
    ensures ReprBody(s, q) == s
    decreases |s|
  {
    if s != [] {
      assert PlainChar(s[0], q);
      ReprBodyPlain(s[1..], q);
      assert s == [s[0]] + s[1..];
    }
  }

  /** `repr` picks double quotes for a string with a single quote and no double quote. */
  lemma StrReprQuotes()
    ensures StrRepr("a'") == "\"a'\""
  {
    var t := "a'";
    assert Quote(t) == '"' by {
      assert t[1] == '\'';
      assert '"' !in t;
    }
    assert ReprBody(t, '"') == t by {
      assert ReprBody(t[1..], '"') == "'" by {
        assert t[1..][1..] == [];
      }
    }
  }

  /** Inside single quotes, a single quote is escaped. */
  lemma StrReprEscapesQuote()
    ensures StrRepr("a'\"") == "'a\\'\"'"
  {
    var s := "a'\"";
    assert Quote(s) == '\'' by {
      assert s[2] == '"';
    }
    assert ReprBody(s[2..], '\'') == "\"" by {
      assert s[2..][1..] == [];
    }
    assert ReprBody(s[1..], '\'') == "\\'" + "\"" by {
      assert s[1..][1..] == s[2..];
    }
  }

  /** A backslash is escaped. */
  lemma StrReprEscapesBackslash()
    ensures StrRepr("a\\b") == "'a\\\\b'"
  {
    var t := "a\\b";
    assert Quote(t) == '\'' by {
      assert '\'' !in t;
    }
    assert ReprBody(t[2..], '\'') == "b" by {
      assert t[2..][1..] == [];
    }
    assert ReprBody(t[1..], '\'') == "\\\\" + "b" by {
      assert t[1..][1..] == t[2..];
    }
  }

  /** A string of plain characters without a single quote is its text in single quotes. */
  lemma StrReprPlain(s: string)
    requires forall i :: 0 <= i < |s| ==> PlainChar(s[i], '\'')
    ensures StrRepr(s) == "'" + s + "'"
  {
    ReprBodyPlain(s, '\'');
  }


  /** `sep.join(parts)` */
  function Join(parts: seq<string>, sep: string): string
    decreases |parts|
  {
    if |parts| == 0 then ""
    else if |parts| == 1 then parts[0]
    else parts[0] + sep + Join(parts[1..], sep)
  }

  /** The index of the first `c` in `s`. */
  function IndexOf(s: string, c: char): (i: nat)
    requires c in s
    ensures i < |s| && s[i] == c && c !in s[..i]
  {
    if s[0] == c then 0 else IndexOf(s[1..], c) + 1
  }

  /** The index of the last `c` in `s`. */
  function LastIndexOf(s: string, c: char): (i: nat)
    requires c in s
    ensures i < |s| && s[i] == c && c !in s[i + 1..]
    decreases |s|
  {
    if s[|s| - 1] == c then |s| - 1
    else
      assert c in s[..|s| - 1] by {
        var k :| 0 <= k < |s| && s[k] == c;
        assert s[..|s| - 1][k] == c;
      }
      var i := LastIndexOf(s[..|s| - 1], c);
      assert s[i + 1..] == s[..|s| - 1][i + 1..] + [s[|s| - 1]];
      i
  }

  /** `s.split(c)` for a one-character separator. */
  function SplitChar(s: string, c: char): (parts: seq<string>)
    ensures |parts| > 0
    decreases |s|
  {
    if c in s then
      var i := IndexOf(s, c);
      [s[..i]] + SplitChar(s[i + 1..], c)
    else [s]
  }

  /** Joining the pieces of a split with the separator gives back the string. */
  lemma {:induction false} SplitJoin(s: string, c: char)
    ensures Join(SplitChar(s, c), [c]) == s
    decreases |s|
  {
    if c in s {
      var i := IndexOf(s, c);
      var tail := SplitChar(s[i + 1..], c);
      SplitJoin(s[i + 1..], c);
      JoinCons(s[..i], tail, [c]);
      assert s == s[..i] + [c] + s[i + 1..];
    }
  }

  /** Joining a head onto a non-empty tail puts the separator between them. */
  lemma JoinCons(head: string, tail: seq<string>, sep: string)
    requires |tail| > 0
    ensures Join([head] + tail, sep) == head + sep + Join(tail, sep)
  {
    assert ([head] + tail)[1..] == tail;
  }

  /** No piece of a split contains the separator. */
  lemma {:induction false} SplitPiecesFree(s: string, c: char)
    ensures forall k :: 0 <= k < |SplitChar(s, c)| ==> c !in SplitChar(s, c)[k]
    decreases |s|
  {
    if c in s {
      SplitPiecesFree(s[IndexOf(s, c) + 1..], c);
    }
  }

  /** The first piece of a split is everything before the first separator. */
  lemma SplitCons(head: string, c: char, rest: string)
    requires c !in head
    ensures SplitChar(head + [c] + rest, c) == [head] + SplitChar(rest, c)
  {
    var s := head + [c] + rest;
    assert s[|head|] == c;
    var i := IndexOf(s, c);
    assert s[..|head|] == head;
    assert s[..i] == head;
    assert s[i + 1..] == rest;
  }

  /** Splitting a join gives back the pieces, when there is at least one and none holds the separator. */
  lemma {:induction false} JoinSplit(parts: seq<string>, c: char)
    requires |parts| > 0
    requires forall k :: 0 <= k < |parts| ==> c !in parts[k]
    ensures SplitChar(Join(parts, [c]), c) == parts
    decreases |parts|
  {
    if |parts| > 1 {
      assert c !in parts[0];
      SplitCons(parts[0], c, Join(parts[1..], [c]));
      JoinSplit(parts[1..], c);
      assert parts == [parts[0]] + parts[1..];
    } else {
      assert c !in parts[0];
    }
  }

  /** `sep.join(s.split(sep)[1:])` is the text after the first separator, or "" when there is none. */
  lemma SplitDropFirst(s: string, c: char)
    ensures Join(SplitChar(s, c)[1..], [c]) == if c in s then s[IndexOf(s, c) + 1..] else ""
  {
    if c in s {
      SplitTail(s, c);
      SplitJoin(s[IndexOf(s, c) + 1..], c);
    } else {
      assert SplitChar(s, c) == [s];
    }
  }

  /** After the first piece, a split goes on with the split of the text after the first separator. */
  lemma SplitTail(s: string, c: char)
    requires c in s
    ensures SplitChar(s, c)[1..] == SplitChar(s[IndexOf(s, c) + 1..], c)
  {
    var parts := SplitChar(s, c);
    var tail := SplitChar(s[IndexOf(s, c) + 1..], c);
    assert parts == [s[..IndexOf(s, c)]] + tail;
    assert parts[1..] == tail;
  }

  /** Python's `a < b` on strings: lexicographic order of code points. */
  predicate LexLess(a: string, b: string)
    decreases |a|
  {
    if a == [] then b != []
    else if b == [] then false
    else if a[0] != b[0] then a[0] < b[0]
    else LexLess(a[1..], b[1..])
  }

  /** Python's `a >= b` on strings. */
  predicate LexGe(a: string, b: string) {
    !LexLess(a, b)
  }

  function DigitsValue(s: string): (n: nat)
    requires forall i :: 0 <= i < |s| ==> IsDigit(s[i])
    decreases |s|
  {
    if s == [] then 0
    else
      var d := s[|s| - 1];
      assert IsDigit(d);
      DigitsValue(s[..|s| - 1]) * 10 + (d as int - '0' as int)
  }

  predicate AllDigits(s: string) {
    |s| > 0 && forall i :: 0 <= i < |s| ==> IsDigit(s[i])
  }

  /** Digits are not whitespace, so stripping a numeral leaves it as it is. */
  lemma DigitsUnstripped(s: string)
    requires AllDigits(s)
    ensures Strip(s, Whitespace) == s
  {
    assert forall c :: c in Whitespace ==> !IsDigit(c);
    assert IsDigit(s[0]) && IsDigit(s[|s| - 1]);
    StripNoop(s, Whitespace);
  }

  /**
   * Python's `int(s)`: optional surrounding whitespace, an optional sign and one or more
   * decimal digits; anything else raises (modelled as `None`).
   */
  function ParseInt(s: string): (r: Option<int>)
    ensures AllDigits(s) ==> r == Some(DigitsValue(s))
  {
    var t := Strip(s, Whitespace);
    assert AllDigits(s) ==> t == s by {
      if AllDigits(s) {
        DigitsUnstripped(s);
      }
    }
    if AllDigits(t) then Some(DigitsValue(t))
    else if |t| > 1 && t[0] == '-' && AllDigits(t[1..]) then Some(0 - DigitsValue(t[1..]) as int)
    else if |t| > 1 && t[0] == '+' && AllDigits(t[1..]) then Some(DigitsValue(t[1..]))
    else None
  }
}
