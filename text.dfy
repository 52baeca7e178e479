/**
 * The small part of `java.lang.String` and `java.util.regex` that the
 * support pipeline relies on, stated over Dafny strings: `trim`, `isBlank`,
 * Spring's `hasText`, upper/lower casing, `contains`, `indexOf`,
 * `startsWith`, `endsWith`, `split` with a literal separator, `join`,
 * and the character classes `\s` and `\d`.
 */
module Text {

  /** A Java reference that may be `null`. */
  datatype Option<+T> = None | Some(value: T)

  /**
   * What a call into an external collaborator gives back: a value, or the
   * exception it threw, carried as that exception's `getMessage()` (which
   * Java allows to be `null`).
   */
  datatype Outcome<+T> = Ok(value: T) | Fail(message: Option<string>)

  // ----- character classes --------------------------------------------------

  /** The characters `String.trim` strips from both ends: U+0000 to U+0020. */
  predicate IsTrimmable(c: char) { c <= ' ' }

  /** `Character.isWhitespace`, which `String.isBlank` and `StringUtils.hasText` use. */
  predicate IsJavaWhitespace(c: char) {
    ('\t' <= c <= '\r') || ('\U{1C}' <= c <= ' ') || c == '\U{1680}'
    || ('\U{2000}' <= c <= '\U{2006}') || ('\U{2008}' <= c <= '\U{200A}')
    || c == '\U{2028}' || c == '\U{2029}' || c == '\U{205F}' || c == '\U{3000}'
  }

  /** The regex class `\s` (no UNICODE_CHARACTER_CLASS flag): space, \t, \n, \x0B, \f, \r. */
  predicate IsRegexSpace(c: char) { c == ' ' || ('\t' <= c <= '\r') }

  /** The regex class `\d`: the ASCII digits. */
  predicate IsDigit(c: char) { '0' <= c <= '9' }

  /** The line terminators that the regex `.` does not match (UNIX_LINES off). */
  predicate IsLineTerminator(c: char) {
    c == '\n' || c == '\r' || c == '\U{85}' || c == '\U{2028}' || c == '\U{2029}'
  }

  // ----- trim, isBlank, hasText ----------------------------------------------

  /** `trim` at the front: the strippable characters `s` starts with dropped. */
  function TrimStart(s: string): (r: string)
    decreases |s|
    ensures |r| <= |s|
  {
    if |s| > 0 && IsTrimmable(s[0]) then TrimStart(s[1..]) else s
  }

  /** What `TrimStart` drops is strippable, what it keeps is a suffix starting with a character it does not strip. */
  lemma {:induction false} TrimStartShape(s: string)
    ensures TrimStart(s) == s[|s| - |TrimStart(s)|..]
    ensures forall i :: 0 <= i < |s| - |TrimStart(s)| ==> IsTrimmable(s[i])
    ensures TrimStart(s) == [] || !IsTrimmable(TrimStart(s)[0])
    decreases |s|
  {
    if |s| > 0 && IsTrimmable(s[0]) {
      TrimStartShape(s[1..]);
      assert s[1..][|s| - 1 - |TrimStart(s)|..] == s[|s| - |TrimStart(s)|..];
      forall i | 1 <= i < |s| - |TrimStart(s)| ensures IsTrimmable(s[i]) {
        assert s[i] == s[1..][i - 1];
      }
    }
  }

  /** `trim` at the back: the strippable characters `s` ends with dropped. */
  function TrimEnd(s: string): (r: string)
    decreases |s|
    ensures |r| <= |s|
  {
    if |s| > 0 && IsTrimmable(s[|s| - 1]) then TrimEnd(s[..|s| - 1]) else s
  }

  /** What `TrimEnd` drops is strippable, what it keeps is a prefix ending with a character it does not strip. */
  lemma {:induction false} TrimEndShape(s: string)
    ensures TrimEnd(s) == s[..|TrimEnd(s)|]
    ensures forall i :: |TrimEnd(s)| <= i < |s| ==> IsTrimmable(s[i])
    ensures TrimEnd(s) == [] || !IsTrimmable(TrimEnd(s)[|TrimEnd(s)| - 1])
    decreases |s|
  {
    if |s| > 0 && IsTrimmable(s[|s| - 1]) {
      var n := |s| - 1;
      TrimEndShape(s[..n]);
      assert s[..n][..|TrimEnd(s)|] == s[..|TrimEnd(s)|];
      forall i | |TrimEnd(s)| <= i < n ensures IsTrimmable(s[i]) {
        assert s[i] == s[..n][i];
      }
    }
  }

  /** Neither end of `s` is a character that `trim` strips. */
  predicate IsTrimmed(s: string) {
    s == [] || (!IsTrimmable(s[0]) && !IsTrimmable(s[|s| - 1]))
  }

  /** A string made only of characters that `trim` strips. */
  predicate AllTrimmable(s: string) { forall i :: 0 <= i < |s| ==> IsTrimmable(s[i]) }

  /** `String.trim`: drop every character up to U+0020 from both ends. */
  function Trim(s: string): (r: string)
    ensures IsTrimmed(r)
    ensures |r| <= |s|
  {
    TrimStartShape(s);
    TrimEndShape(TrimStart(s));
    TrimEnd(TrimStart(s))
  }

  /** `trim` returns a contiguous piece of its argument. */
  lemma TrimInfix(s: string) returns (a: nat, b: nat)
    ensures a <= b <= |s| && Trim(s) == s[a..b]
  {
    var t := TrimStart(s);
    TrimStartShape(s);
    TrimEndShape(t);
    a := |s| - |t|;
    b := a + |TrimEnd(t)|;
    assert t == s[a..];
    assert TrimEnd(t) == t[..b - a];
  }

  /** Strippable characters in front make no difference to `TrimStart`. */
  lemma {:induction false} TrimStartSkips(pre: string, x: string)
    requires AllTrimmable(pre)
    ensures TrimStart(pre + x) == TrimStart(x)
  {
    if pre != [] {
      assert (pre + x)[0] == pre[0] && IsTrimmable(pre[0]);
      assert (pre + x)[1..] == pre[1..] + x;
      TrimStartSkips(pre[1..], x);
    } else {
      assert pre + x == x;
    }
  }

  /** Strippable characters behind make no difference to `TrimEnd`. */
  lemma {:induction false} TrimEndSkips(x: string, post: string)
    requires AllTrimmable(post)
    ensures TrimEnd(x + post) == TrimEnd(x)
  {
    if post != [] {
      var n := |post| - 1;
      assert (x + post)[|x + post| - 1] == post[n] && IsTrimmable(post[n]);
      assert (x + post)[..|x + post| - 1] == x + post[..n];
      TrimEndSkips(x, post[..n]);
    } else {
      assert x + post == x;
    }
  }

  /** `trim` takes off exactly the strippable padding around a trimmed core. */
  lemma TrimPadded(pre: string, core: string, post: string)
    requires AllTrimmable(pre) && AllTrimmable(post) && IsTrimmed(core)
    ensures Trim(pre + core + post) == core
  {
    assert pre + core + post == pre + (core + post);
    TrimStartSkips(pre, core + post);
    if core == [] {
      assert core + post == post + [];
      TrimStartSkips(post, []);
    } else {
      assert (core + post)[0] == core[0];
      assert TrimStart(core + post) == core + post;
      TrimEndSkips(core, post);
    }
  }

  /** `trim` leaves a string alone once it is trimmed. */
  lemma TrimOfTrimmed(s: string)
    requires IsTrimmed(s)
    ensures Trim(s) == s
  {
    TrimPadded([], s, []);
    assert [] + s + [] == s;
  }

  /** A string holding a character that `trim` does not strip trims to a non-empty string. */
  lemma TrimKeepsProperChar(s: string, k: nat)
    requires k < |s| && !IsTrimmable(s[k])
    ensures Trim(s) != []
  {
    var t := TrimStart(s);
    TrimStartShape(s);
    TrimEndShape(t);
    assert |s| - |t| <= k;
    var j := k - (|s| - |t|);
    assert t[j] == s[k];
    assert j < |TrimEnd(t)|;
  }

  /** `String.isBlank`: empty or only `Character.isWhitespace` code points. */
  predicate IsBlank(s: string) {
    forall i :: 0 <= i < |s| ==> IsJavaWhitespace(s[i])
  }

  /** Spring's `StringUtils.hasText`: non-null and holding a non-whitespace character. */
  predicate HasText(s: Option<string>) {
    s.Some? && !IsBlank(s.value)
  }

  // ----- case mapping -----------------------------------------------------------

  /** Upper-casing of one character: ASCII letters and the accented letters the core compares. */
  function UpperChar(c: char): char {
    if 'a' <= c <= 'z' then (c as int - 32) as char
    else if c == 'ô' then 'Ô'
    else if c == 'ç' then 'Ç'
    else if c == 'ã' then 'Ã'
    else if c == 'ó' then 'Ó'
    else if c == 'é' then 'É'
    else c
  }

  /** Lower-casing of one character, the inverse mapping of `UpperChar`. */
  function LowerChar(c: char): char {
    if 'A' <= c <= 'Z' then (c as int + 32) as char
    else if c == 'Ô' then 'ô'
    else if c == 'Ç' then 'ç'
    else if c == 'Ã' then 'ã'
    else if c == 'Ó' then 'ó'
    else if c == 'É' then 'é'
    else c
  }

  /** `String.toUpperCase`, character by character. */
  function ToUpperCase(s: string): (r: string)
    ensures |r| == |s| && forall i :: 0 <= i < |s| ==> r[i] == UpperChar(s[i])
  {
    seq(|s|, i requires 0 <= i < |s| => UpperChar(s[i]))
  }

  /** `String.toLowerCase`, character by character. */
  function ToLowerCase(s: string): (r: string)
    ensures |r| == |s| && forall i :: 0 <= i < |s| ==> r[i] == LowerChar(s[i])
  {
    seq(|s|, i requires 0 <= i < |s| => LowerChar(s[i]))
  }

  /** Upper-casing forgets the case of its input: a lower-cased string upper-cases alike. */
  lemma UpperOfLower(s: string)
    ensures ToUpperCase(ToLowerCase(s)) == ToUpperCase(s)
  {
    var a, b := ToUpperCase(ToLowerCase(s)), ToUpperCase(s);
    forall i | 0 <= i < |s| ensures a[i] == b[i] { }
  }

  /** Upper-casing is idempotent. */
  lemma UpperOfUpper(s: string)
    ensures ToUpperCase(ToUpperCase(s)) == ToUpperCase(s)
  {
    var a, b := ToUpperCase(ToUpperCase(s)), ToUpperCase(s);
    forall i | 0 <= i < |s| ensures a[i] == b[i] { }
  }

  // ----- searching ----------------------------------------------------------------

  predicate StartsWith(s: string, p: string) { |p| <= |s| && s[..|p|] == p }

  predicate EndsWith(s: string, p: string) { |p| <= |s| && s[|s| - |p|..] == p }

  /** `p` occurs in `s` starting at index `j`. */
  predicate OccursAt(s: string, p: string, j: nat) { j + |p| <= |s| && s[j..j + |p|] == p }


  /** The first occurrence of `p` in `s` at or after `k`. */
  function IndexFrom(s: string, p: string, k: nat): (r: Option<nat>)
    requires k <= |s|
    decreases |s| - k
    ensures r.Some? ==> k <= r.value && OccursAt(s, p, r.value)
    ensures r.Some? ==> forall j :: k <= j < r.value ==> !OccursAt(s, p, j)
    ensures r.None? ==> forall j: nat :: k <= j ==> !OccursAt(s, p, j)
  {
    if k + |p| > |s| then None
    else if OccursAt(s, p, k) then Some(k)
    else IndexFrom(s, p, k + 1)
  }

  /** `String.indexOf`, with `None` for -1. */
  function IndexOf(s: string, p: string): (r: Option<nat>)
    ensures r.Some? ==> OccursAt(s, p, r.value) && forall j :: 0 <= j < r.value ==> !OccursAt(s, p, j)
    ensures r.None? ==> forall j: nat :: !OccursAt(s, p, j)
  {
    IndexFrom(s, p, 0)
  }

  /** `String.contains`: `indexOf` finds an occurrence. */
  predicate Contains(s: string, p: string) { IndexOf(s, p).Some? }

  /** `contains` holds exactly when the phrase occurs somewhere. */
  lemma ContainsIff(s: string, p: string)
    ensures Contains(s, p) <==> exists j: nat :: OccursAt(s, p, j)
  {
  }

  /** An occurrence with none before it is the one `indexOf` finds. */
  lemma IndexOfFirst(s: string, p: string, i: nat)
    requires OccursAt(s, p, i)
    requires forall j :: 0 <= j < i ==> !OccursAt(s, p, j)
    ensures IndexOf(s, p) == Some(i)
  {
    assert i <= |s|;
  }

  /** A phrase holding a character that the text lacks does not occur in it. */
  lemma MissingCharNotContained(s: string, p: string, k: nat)
    requires k < |p| && p[k] !in s
    ensures !Contains(s, p)
  {
    forall j: nat ensures !OccursAt(s, p, j) {
      if j + |p| <= |s| {
        assert s[j..j + |p|][k] == s[j + k];
        assert s[j + k] in s;
      }
    }
  }

  /** A string longer than `s` does not occur in it. */
  lemma LongerNotContained(s: string, p: string)
    requires |p| > |s|
    ensures !Contains(s, p)
  {
  }

  // ----- regex tests -------------------------------------------------------------

  /** The number of decimal digits `s` starts with. */
  function LeadingDigits(s: string): (n: nat)
    decreases |s|
    ensures n <= |s| && (forall i :: 0 <= i < n ==> IsDigit(s[i])) && (n == |s| || !IsDigit(s[n]))
  {
    if s != [] && IsDigit(s[0]) then 1 + LeadingDigits(s[1..]) else 0
  }

  /**
   * `s.matches("^\\d+" + sep + "\\s.*")`: digits, the separator, one `\s`
   * character, and then anything but a line terminator up to the end.
   */
  predicate IsNumberedItem(s: string, sep: char) {
    var n := LeadingDigits(s);
    1 <= n && n + 2 <= |s| && s[n] == sep && IsRegexSpace(s[n + 1])
    && forall i :: n + 2 <= i < |s| ==> !IsLineTerminator(s[i])
  }

  // ----- removing, splitting, joining -------------------------------------------

  /** `s.replace(String.valueOf(c), "")`: every `c` removed. */
  function RemoveChar(s: string, c: char): (r: string)
    ensures c !in r && |r| <= |s|
    ensures c !in s ==> r == s
  {
    if s == [] then [] else (if s[0] == c then [] else [s[0]]) + RemoveChar(s[1..], c)
  }

  /** `s.replaceAll("\\s+", "")`: every character of the class `\s` removed. */
  function RemoveRegexSpaces(s: string): (r: string)
    ensures forall i :: 0 <= i < |r| ==> !IsRegexSpace(r[i])
    ensures (forall i :: 0 <= i < |s| ==> !IsRegexSpace(s[i])) ==> r == s
  {
    if s == [] then [] else (if IsRegexSpace(s[0]) then [] else [s[0]]) + RemoveRegexSpaces(s[1..])
  }

  /** The pieces of `s` between the leftmost non-overlapping occurrences of `sep`. */
  function SplitAll(s: string, sep: string): (r: seq<string>)
    requires |sep| > 0
    decreases |s|
    ensures |r| >= 1
  {
    match IndexOf(s, sep)
    case None => [s]
    case Some(i) => [s[..i]] + SplitAll(s[i + |sep|..], sep)
  }

  /** The list with its trailing empty strings removed. */
  function DropTrailingEmpty(parts: seq<string>): (r: seq<string>)
    ensures r <= parts
    ensures r == [] || r[|r| - 1] != []
    ensures forall i :: |r| <= i < |parts| ==> parts[i] == []
  {
    if parts == [] || parts[|parts| - 1] != [] then parts
    else DropTrailingEmpty(parts[..|parts| - 1])
  }

  /**
   * `String.split(sep)` for a separator with no regex meaning, limit 0: the
   * whole string when `sep` does not occur, otherwise the pieces with the
   * trailing empty ones removed.
   */
  function Split(s: string, sep: string): (r: seq<string>)
    requires |sep| > 0
  {
    if IndexOf(s, sep).None? then [s] else DropTrailingEmpty(SplitAll(s, sep))
  }

  /** `String.join(sep, parts)`. */
  function Join(parts: seq<string>, sep: string): string
  {
    if |parts| == 0 then ""
    else if |parts| == 1 then parts[0]
    else parts[0] + sep + Join(parts[1..], sep)
  }

  /** Splitting on a one-character separator undoes joining on it. */
  lemma {:induction false} SplitJoin(parts: seq<string>, c: char)
    requires |parts| >= 1
    requires forall i :: 0 <= i < |parts| ==> c !in parts[i]
    requires parts[|parts| - 1] != []
    ensures Split(Join(parts, [c]), [c]) == parts
  {
    if |parts| == 1 {
      MissingCharNotContained(parts[0], [c], 0);
    } else {
      SplitAllJoin(parts, c);
      assert OccursAt(Join(parts, [c]), [c], |parts[0]|);
    }
  }

  lemma {:induction false} SplitAllJoin(parts: seq<string>, c: char)
    requires |parts| >= 1
    requires forall i :: 0 <= i < |parts| ==> c !in parts[i]
    ensures SplitAll(Join(parts, [c]), [c]) == parts
  {
    var s := Join(parts, [c]);
    if |parts| == 1 {
      MissingCharNotContained(parts[0], [c], 0);
    } else {
      var rest := Join(parts[1..], [c]);
      assert s == parts[0] + [c] + rest;
      FirstSeparator(parts[0], c, rest);
      SplitAllJoin(parts[1..], c);
      assert parts == [parts[0]] + parts[1..];
    }
  }

  /** The first `c` in `p + [c] + rest`, when `p` has none, is the one after `p`. */
  lemma FirstSeparator(p: string, c: char, rest: string)
    requires c !in p
    ensures IndexOf(p + [c] + rest, [c]) == Some(|p|)
    ensures (p + [c] + rest)[..|p|] == p && (p + [c] + rest)[|p| + 1..] == rest
  {
    var s := p + [c] + rest;
    var i := |p|;
    assert OccursAt(s, [c], i);
    forall j | 0 <= j < i ensures !OccursAt(s, [c], j) {
      assert s[j] == p[j];
    }
    IndexOfFirst(s, [c], i);
  }
}
