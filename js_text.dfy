/**
 * The JavaScript string primitives the application relies on: the character
 * classes `\s` and `\w`, `trim`, `includes`, `startsWith`, `endsWith`,
 * `split`, `join`, `slice(-n)`, decimal rendering of numbers, and the
 * leftmost, non-overlapping scanning that `replace(/re/g, '')`, `match(/re/g)`
 * and a non-global `replace`/`match` perform.
 *
 * A JavaScript string is a sequence of UTF-16 code units; the model takes
 * each `char` for one code unit, so lengths agree with `String.length`.
 */
module JsText {
  import opened Wrappers

  /** WhiteSpace and LineTerminator: what `trim()` removes and `\s` matches. */
  predicate IsSpace(c: char)
  {
    var n := c as int;
    (0x09 <= n <= 0x0D) || n == 0x20 || n == 0xA0 || n == 0x1680 ||
    (0x2000 <= n <= 0x200A) || n == 0x2028 || n == 0x2029 ||
    n == 0x202F || n == 0x205F || n == 0x3000 || n == 0xFEFF
  }

  /** The characters at which `^` and `$` match in multiline mode. */
  predicate IsLineTerminator(c: char)
  {
    c == '\n' || c == '\r' || c as int == 0x2028 || c as int == 0x2029
  }

  /** `\w`: ASCII letters, digits and the underscore. */
  predicate IsWordChar(c: char)
  {
    ('a' <= c <= 'z') || ('A' <= c <= 'Z') || ('0' <= c <= '9') || c == '_'
  }

  predicate AllSpace(s: string)
  {
    forall k :: 0 <= k < |s| ==> IsSpace(s[k])
  }

  /** True when `s` has neither leading nor trailing white space. */
  predicate IsTrimmed(s: string)
  {
    s == [] || (!IsSpace(s[0]) && !IsSpace(s[|s| - 1]))
  }

  function TrimStart(s: string): (r: string)
    ensures |r| <= |s| && r == s[|s| - |r|..]
    ensures AllSpace(s[..|s| - |r|])
    ensures r == [] || !IsSpace(r[0])
  {
    if s != [] && IsSpace(s[0]) then
      var r := TrimStart(s[1..]);
      assert s[..|s| - |r|] == [s[0]] + s[1..][..|s| - 1 - |r|];
      r
    else s
  }

  function TrimEnd(s: string): (r: string)
    ensures |r| <= |s| && r == s[..|r|]
    ensures AllSpace(s[|r|..])
    ensures r == [] || !IsSpace(r[|r| - 1])
  {
    if s != [] && IsSpace(s[|s| - 1]) then
      var r := TrimEnd(s[..|s| - 1]);
      assert s[|r|..] == s[..|s| - 1][|r|..] + [s[|s| - 1]];
      r
    else s
  }

  /** Trimming never lengthens a text, and a trim that keeps the length changes nothing. */
  lemma TrimShortens(s: string)
    ensures |Trim(s)| <= |s|
    ensures |Trim(s)| == |s| ==> Trim(s) == s
  {
    assert Trim(s) == TrimEnd(TrimStart(s));
  }

  /** `s.trim()`: white space cut off both ends; nothing is left exactly when `s` is all white space. */
  function Trim(s: string): (r: string)
    ensures IsTrimmed(r)
    ensures r == [] <==> AllSpace(s)
  {
    var t := TrimStart(s);
    var r := TrimEnd(t);
    assert r == [] ==> t == t[|r|..];
    r
  }

  /** A string that is already trimmed is a fixed point of `trim()`. */
  lemma TrimOfTrimmed(s: string)
    requires IsTrimmed(s)
    ensures Trim(s) == s
  {
  }

  /** `trim()` is idempotent. */
  lemma TrimIdempotent(s: string)
    ensures Trim(Trim(s)) == Trim(s)
  {
    TrimOfTrimmed(Trim(s));
  }

  /** Text that differs from `t` only by surrounding white space trims to the same value. */
  lemma {:induction false} TrimIgnoresPadding(pre: string, t: string, post: string)
    requires AllSpace(pre) && AllSpace(post)
    ensures Trim(pre + t + post) == Trim(t)
  {
    var u := TrimStart(t);
    assert pre + t + post == pre + (t + post);
    TrimStartPadding(pre, t + post);
    if u == [] {
      assert t[..|t| - |u|] == t;
      AllSpaceJoin(t, post);
      TrimStartAllSpace(t + post);
    } else {
      TrimStartKeepsTail(t, post);
      TrimEndPadding(u, post);
    }
  }

  lemma AllSpaceJoin(s: string, t: string)
    requires AllSpace(s) && AllSpace(t)
    ensures AllSpace(s + t)
  {
    forall k | 0 <= k < |s + t|
      ensures IsSpace((s + t)[k])
    {
      if k < |s| {
        assert (s + t)[k] == s[k];
      } else {
        assert (s + t)[k] == t[k - |s|];
      }
    }
  }

  lemma {:induction false} TrimStartPadding(pre: string, t: string)
    requires AllSpace(pre)
    ensures TrimStart(pre + t) == TrimStart(t)
    decreases |pre|
  {
    if pre != [] {
      assert (pre + t)[1..] == pre[1..] + t;
      TrimStartPadding(pre[1..], t);
    } else {
      assert pre + t == t;
    }
  }

  lemma {:induction false} TrimStartAllSpace(s: string)
    requires AllSpace(s)
    ensures TrimStart(s) == [] && TrimEnd(TrimStart(s)) == []
  {
  }

  lemma {:induction false} TrimStartKeepsTail(t: string, post: string)
    requires TrimStart(t) != []
    ensures TrimStart(t + post) == TrimStart(t) + post
    decreases |t|
  {
    var u := t + post;
    assert u[0] == t[0];
    if IsSpace(t[0]) {
      assert u[1..] == t[1..] + post;
      assert TrimStart(u) == TrimStart(u[1..]);
      assert TrimStart(t) == TrimStart(t[1..]);
      TrimStartKeepsTail(t[1..], post);
    } else {
      assert TrimStart(u) == u && TrimStart(t) == t;
    }
  }

  lemma {:induction false} TrimEndPadding(t: string, post: string)
    requires AllSpace(post)
    ensures TrimEnd(t + post) == TrimEnd(t)
    decreases |post|
  {
    if post == [] {
      assert t + post == t;
    } else {
      var p := post[..|post| - 1];
      assert (t + post)[..|t + post| - 1] == t + p;
      TrimEndPadding(t, p);
    }
  }

  predicate IsBlank(s: string)
  {
    Trim(s) == []
  }

  /** `s.startsWith(lit, i)`: `lit` occurs in `s` at position `i`. */
  predicate StartsAt(s: string, i: int, lit: string)
  {
    0 <= i && i + |lit| <= |s| && s[i..i + |lit|] == lit
  }

  /** The character at offset `d` of a literal that starts at `i`. */
  lemma CharAt(s: string, i: nat, lit: string, d: nat)
    requires StartsAt(s, i, lit) && d < |lit|
    ensures s[i + d] == lit[d]
  {
    assert s[i..i + |lit|][d] == s[i + d];
  }

  /** A text that differs from `lit` at offset `d`, or ends before it, does not start with `lit` there. */
  lemma DiffersAt(s: string, i: nat, lit: string, d: nat)
    requires d < |lit| && (i + d < |s| ==> s[i + d] != lit[d])
    ensures !StartsAt(s, i, lit)
  {
    if StartsAt(s, i, lit) {
      CharAt(s, i, lit, d);
    }
  }

  predicate StartsWith(s: string, p: string)
  {
    StartsAt(s, 0, p)
  }

  predicate EndsWith(s: string, p: string)
  {
    |p| <= |s| && s[|s| - |p|..] == p
  }

  /** `s.includes(p)`. */
  predicate Includes(s: string, p: string)
  {
    exists i :: 0 <= i <= |s| - |p| && StartsAt(s, i, p)
  }

  /** A text without any occurrence of `c` includes no literal that contains `c`. */
  lemma NotIncludes(s: string, p: string, c: char)
    requires c !in s && c in p
    ensures !Includes(s, p)
  {
    var k :| 0 <= k < |p| && p[k] == c;
    forall i | 0 <= i <= |s| - |p|
      ensures !StartsAt(s, i, p)
    {
      assert s[i..i + |p|][k] != p[k];
    }
  }

  lemma IncludesAt(s: string, i: int, p: string)
    requires StartsAt(s, i, p)
    ensures Includes(s, p)
  {
  }

  /** Some occurrence of `lit` under the `/i` flag starts at or after `from`. */
  predicate OccursCIFrom(s: string, from: int, lit: string)
  {
    exists q :: from <= q <= |s| - |lit| && StartsAtCI(s, q, lit)
  }

  /** ASCII lower-casing; the case-insensitive patterns of the source only use ASCII letters. */
  function LowerAscii(c: char): char
  {
    if 'A' <= c <= 'Z' then (c as int + 32) as char else c
  }

  /** The lower-case literal `lit` occurs at `i` under the `/i` flag. */
  predicate StartsAtCI(s: string, i: int, lit: string)
  {
    0 <= i && i + |lit| <= |s| && forall k :: 0 <= k < |lit| ==> LowerAscii(s[i + k]) == lit[k]
  }

  /** Character classes over which the source's patterns repeat greedily. */
  datatype CharClass = Space | Word

  predicate InClass(c: char, cls: CharClass)
  {
    match cls
    case Space => IsSpace(c)
    case Word => IsWordChar(c)
  }

  /** End of the longest run of `cls` characters that starts at `i` (`\s*`, `\w*`). */
  function RunEnd(s: string, i: nat, cls: CharClass): (e: nat)
    requires i <= |s|
    ensures i <= e <= |s|
    ensures forall k :: i <= k < e ==> InClass(s[k], cls)
    ensures e == |s| || !InClass(s[e], cls)
    decreases |s| - i
  {
    if i < |s| && InClass(s[i], cls) then RunEnd(s, i + 1, cls) else i
  }

  /** The position of the first `c` at or after `i`. */
  function IndexOfFrom(s: string, c: char, i: nat): (r: Option<nat>)
    requires i <= |s|
    ensures r.Some? ==> i <= r.value < |s| && s[r.value] == c
    ensures r.Some? ==> forall k :: i <= k < r.value ==> s[k] != c
    ensures r.None? ==> forall k :: i <= k < |s| ==> s[k] != c
    decreases |s| - i
  {
    if i == |s| then None else if s[i] == c then Some(i) else IndexOfFrom(s, c, i + 1)
  }

  /** The position of the last character in `s[lo..hi]` satisfying the class test `wanted`. */
  function LastIndexIn(s: string, lo: nat, hi: nat, wanted: char -> bool): (r: Option<nat>)
    requires lo <= hi <= |s|
    ensures r.Some? ==> lo <= r.value < hi && wanted(s[r.value])
    ensures r.Some? ==> forall k :: r.value < k < hi ==> !wanted(s[k])
    ensures r.None? ==> forall k :: lo <= k < hi ==> !wanted(s[k])
    decreases hi - lo
  {
    if lo == hi then None
    else if wanted(s[hi - 1]) then Some(hi - 1)
    else LastIndexIn(s, lo, hi - 1, wanted)
  }

  /** `parts.join(sep)`. */
  function Join(parts: seq<string>, sep: string): string
  {
    if parts == [] then []
    else if |parts| == 1 then parts[0]
    else parts[0] + sep + Join(parts[1..], sep)
  }

  /** `s.split(sep)` for a one-character separator. */
  function Split(s: string, sep: char): (parts: seq<string>)
    ensures |parts| >= 1
    ensures forall k :: 0 <= k < |parts| ==> sep !in parts[k]
  {
    if s == [] then [[]]
    else
      var rest := Split(s[1..], sep);
      if s[0] == sep then [[]] + rest
      else
        assert forall k :: 1 <= k < |rest| ==> rest[1..][k - 1] == rest[k];
        [[s[0]] + rest[0]] + rest[1..]
  }

  /** Joining the pieces of a split with the separator gives the original text back. */
  lemma {:induction false} JoinSplit(s: string, sep: char)
    ensures Join(Split(s, sep), [sep]) == s
  {
    if s != [] {
      var rest := Split(s[1..], sep);
      JoinSplit(s[1..], sep);
      if s[0] == sep {
        assert Split(s, sep) == [[]] + rest;
        assert ([[]] + rest)[1..] == rest;
      } else {
        var parts := Split(s, sep);
        assert parts == [[s[0]] + rest[0]] + rest[1..];
        if |rest| == 1 {
          assert Join(rest, [sep]) == rest[0];
        } else {
          assert Join(rest, [sep]) == rest[0] + [sep] + Join(rest[1..], [sep]);
          assert parts[1..] == rest[1..];
        }
      }
    }
  }

  function DigitChar(d: nat): (c: char)
    requires d < 10
    ensures '0' <= c <= '9'
  {
    "0123456789"[d]
  }

  /** Decimal rendering of a natural number, as template literals print it. */
  function NatToString(n: nat): (r: string)
    ensures |r| >= 1 && forall k :: 0 <= k < |r| ==> '0' <= r[k] <= '9'
  {
    if n < 10 then [DigitChar(n)] else NatToString(n / 10) + [DigitChar(n % 10)]
  }

  /** Decimal rendering of an integer. */
  function IntToString(i: int): string
  {
    if i < 0 then "-" + NatToString(-i) else NatToString(i)
  }

  /** The value of a string of decimal digits: the inverse of NatToString. */
  function DigitsValue(s: string): nat
    requires forall k :: 0 <= k < |s| ==> '0' <= s[k] <= '9'
  {
    if s == [] then 0 else 10 * DigitsValue(s[..|s| - 1]) + (s[|s| - 1] as int - '0' as int)
  }

  lemma {:induction false} NatToStringRoundTrip(n: nat)
    ensures DigitsValue(NatToString(n)) == n
  {
    if n >= 10 {
      var r := NatToString(n);
      NatToStringRoundTrip(n / 10);
      assert r[..|r| - 1] == NatToString(n / 10);
    }
  }

  /** `t` is the decimal text of `i`: digits, after a minus sign when `i` is negative, that read back as its size. */
  predicate ReadsAsInt(t: string, i: int)
  {
    if i >= 0 then t != [] && (forall k :: 0 <= k < |t| ==> '0' <= t[k] <= '9') && DigitsValue(t) == i
    else |t| >= 2 && t[0] == '-' && (forall k :: 1 <= k < |t| ==> '0' <= t[k] <= '9') && DigitsValue(t[1..]) == -i
  }

  /** The decimal text of an integer reads back as that integer. */
  lemma IntToStringRoundTrip(i: int)
    ensures ReadsAsInt(IntToString(i), i)
  {
    if i >= 0 {
      NatToStringRoundTrip(i);
    } else {
      NatToStringRoundTrip(-i);
      assert IntToString(i)[1..] == NatToString(-i);
    }
  }

  /** Distinct numbers render as distinct strings. */
  lemma NatToStringInjective(m: nat, n: nat)
    requires NatToString(m) == NatToString(n)
    ensures m == n
  {
    NatToStringRoundTrip(m);
    NatToStringRoundTrip(n);
  }

  /** `s.slice(start)` with a single argument. */
  function SliceFrom<T>(s: seq<T>, start: int): (r: seq<T>)
    ensures |r| <= |s| && r == s[|s| - |r|..]
  {
    var from := if start < 0 then (if |s| + start < 0 then 0 else |s| + start)
                else (if start > |s| then |s| else start);
    s[from..]
  }

  /**
   * `s.slice(-limit)`: the last `limit` entries for a positive limit, all of
   * them for 0 (since `-0` is `0`), and all but the first `-limit` entries for a
   * negative limit.
   */
  function TakeLast<T>(s: seq<T>, limit: int): (r: seq<T>)
    ensures |r| <= |s| && r == s[|s| - |r|..]
    ensures limit > 0 ==> |r| == (if limit < |s| then limit else |s|)
    ensures limit == 0 ==> r == s
    ensures limit < 0 ==> |r| == (if -limit < |s| then |s| + limit else 0)
  {
    SliceFrom(s, -limit)
  }

  /**
   * A pattern anchored at a position: `m(s, i)` is the end of the match of the
   * pattern that starts at `i` in `s`, if there is one. None of the source's
   * patterns can match the empty string, so only matches that consume at least
   * one character are taken.
   */
  type Matcher = (string, nat) -> Option<nat>

  predicate IsMatch(m: Matcher, s: string, i: nat)
  {
    i <= |s| && m(s, i).Some? && i < m(s, i).value <= |s|
  }

  /** `s.replace(/re/g, '')` over `s[i..]`: every leftmost, non-overlapping match is removed. */
  function RemoveAll(s: string, m: Matcher, i: nat): (r: string)
    requires i <= |s|
    ensures |r| <= |s| - i
    decreases |s| - i
  {
    if i == |s| then []
    else if IsMatch(m, s, i) then RemoveAll(s, m, m(s, i).value)
    else [s[i]] + RemoveAll(s, m, i + 1)
  }

  /** `s.match(/re/g)` over `s[i..]`: the matched texts, left to right. */
  function MatchAll(s: string, m: Matcher, i: nat): (r: seq<string>)
    requires i <= |s|
    ensures forall k :: 0 <= k < |r| ==> |r[k]| > 0
    decreases |s| - i
  {
    if i == |s| then []
    else if IsMatch(m, s, i) then [s[i..m(s, i).value]] + MatchAll(s, m, m(s, i).value)
    else MatchAll(s, m, i + 1)
  }

  /** The start of the leftmost match in `s[i..]`, as a non-global `match` finds it. */
  function FirstMatch(s: string, m: Matcher, i: nat): (r: Option<nat>)
    requires i <= |s|
    ensures r.Some? ==> i <= r.value && IsMatch(m, s, r.value)
    ensures r.Some? ==> forall k :: i <= k < r.value ==> !IsMatch(m, s, k)
    ensures r.None? ==> forall k :: i <= k <= |s| ==> !IsMatch(m, s, k)
    decreases |s| - i
  {
    if i == |s| then None
    else if IsMatch(m, s, i) then Some(i)
    else FirstMatch(s, m, i + 1)
  }

  /** A global removal that keeps as many characters as it was given removed nothing. */
  lemma {:induction false} RemoveAllKeepsAll(s: string, m: Matcher, i: nat)
    requires i <= |s| && |RemoveAll(s, m, i)| == |s| - i
    ensures RemoveAll(s, m, i) == s[i..]
    decreases |s| - i
  {
    if i < |s| {
      if IsMatch(m, s, i) {
        assert false;
      }
      RemoveAllKeepsAll(s, m, i + 1);
      assert s[i..] == [s[i]] + s[i + 1..];
    }
  }

  /** Where the pattern never matches, the global removal leaves the text as it is. */
  lemma {:induction false} RemoveAllWithoutMatch(s: string, m: Matcher, i: nat)
    requires i <= |s|
    requires forall k :: i <= k <= |s| ==> !IsMatch(m, s, k)
    ensures RemoveAll(s, m, i) == s[i..]
    decreases |s| - i
  {
    if i < |s| {
      RemoveAllWithoutMatch(s, m, i + 1);
      assert s[i..] == [s[i]] + s[i + 1..];
    }
  }

  /** The global removal copies a stretch where the pattern does not match. */
  lemma {:induction false} RemoveAllCopies(s: string, m: Matcher, i: nat, j: nat)
    requires i <= j <= |s|
    requires forall k :: i <= k < j ==> !IsMatch(m, s, k)
    ensures RemoveAll(s, m, i) == s[i..j] + RemoveAll(s, m, j)
    decreases j - i
  {
    if i < j {
      assert !IsMatch(m, s, i);
      assert RemoveAll(s, m, i) == [s[i]] + RemoveAll(s, m, i + 1);
      RemoveAllCopies(s, m, i + 1, j);
      assert s[i..j] == [s[i]] + s[i + 1..j];
    }
  }

  /** The global match finds something exactly when the pattern matches somewhere. */
  lemma {:induction false} MatchAllNonEmpty(s: string, m: Matcher, i: nat)
    requires i <= |s|
    ensures MatchAll(s, m, i) != [] <==> exists k :: i <= k <= |s| && IsMatch(m, s, k)
    decreases |s| - i
  {
    if i < |s| && !IsMatch(m, s, i) {
      MatchAllNonEmpty(s, m, i + 1);
      assert (exists k :: i <= k <= |s| && IsMatch(m, s, k)) ==> exists k :: i + 1 <= k <= |s| && IsMatch(m, s, k);
    }
  }

  /** Where the pattern never matches, the global match finds nothing. */
  lemma {:induction false} MatchAllWithoutMatch(s: string, m: Matcher, i: nat)
    requires i <= |s|
    requires forall k :: i <= k <= |s| ==> !IsMatch(m, s, k)
    ensures MatchAll(s, m, i) == []
    decreases |s| - i
  {
    if i < |s| {
      MatchAllWithoutMatch(s, m, i + 1);
    }
  }
}
