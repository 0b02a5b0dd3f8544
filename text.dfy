/** Python string semantics the core relies on: `str.split()` on runs of
    whitespace, `sep.join(parts)`, `str.split(sep)` on one character,
    `str.strip()`, `sub in s`, `str.lower()` and `str(n)` for naturals. */
module Text {

  /** `c.isspace()`: the characters Python's argument-less `split()` and
      `strip()` treat as whitespace. */
  predicate IsSpace(c: char) {
    c == ' ' || ('\t' <= c <= '\r') || ('\U{1c}' <= c <= '\U{1f}')
    || c == '\U{85}' || c == '\U{a0}' || c == '\U{1680}'
    || ('\U{2000}' <= c <= '\U{200a}') || c == '\U{2028}' || c == '\U{2029}'
    || c == '\U{202f}' || c == '\U{205f}' || c == '\U{3000}'
  }

  /** A non-empty string without whitespace: what `split()` produces. */
  predicate IsWord(w: string) {
    |w| > 0 && forall k :: 0 <= k < |w| ==> !IsSpace(w[k])
  }

  /** Length of the run of non-whitespace characters that starts `s`. */
  function WordLength(s: string): (n: nat)
    ensures n <= |s|
    ensures forall k :: 0 <= k < n ==> !IsSpace(s[k])
    ensures n < |s| ==> IsSpace(s[n])
  {
    if |s| == 0 || IsSpace(s[0]) then 0 else 1 + WordLength(s[1..])
  }

  /** `s.split()`: the maximal runs of non-whitespace characters, in order. */
  function Split(s: string): (words: seq<string>)
    decreases |s|
  {
    if |s| == 0 then []
    else if IsSpace(s[0]) then Split(s[1..])
    else
      var n := WordLength(s);
      [s[..n]] + Split(s[n..])
  }

  /** Every piece `split()` yields is a non-empty run of non-whitespace. */
  lemma {:induction false} SplitGivesWords(s: string)
    ensures forall k :: 0 <= k < |Split(s)| ==> IsWord(Split(s)[k])
    decreases |s|
  {
    if |s| > 0 {
      if IsSpace(s[0]) {
        SplitGivesWords(s[1..]);
      } else {
        var n := WordLength(s);
        SplitGivesWords(s[n..]);
      }
    }
  }

  /** `sep.join(parts)`. */
  function Join(sep: string, parts: seq<string>): string {
    if |parts| == 0 then ""
    else if |parts| == 1 then parts[0]
    else parts[0] + sep + Join(sep, parts[1..])
  }

  /** Joining two leading parts before a non-empty rest writes each of
      them followed by the separator. */
  lemma {:induction false} JoinTwoFront(sep: string, a: string, b: string, rest: seq<string>)
    requires rest != []
    ensures Join(sep, [a, b] + rest) == a + sep + b + sep + Join(sep, rest)
  {
    var parts := [a, b] + rest;
    assert parts[1..] == [b] + rest && parts[1..][1..] == rest;
    assert Join(sep, parts[1..]) == b + sep + Join(sep, rest);
  }

  /** The words of every part, part after part. */
  function SplitAll(parts: seq<string>): seq<string> {
    if |parts| == 0 then [] else Split(parts[0]) + SplitAll(parts[1..])
  }

  /** A one-character whitespace separator, such as `" "` or `"\n"`. */
  predicate IsSpaceSeparator(sep: string) {
    |sep| == 1 && IsSpace(sep[0])
  }

  lemma {:induction false} WordLengthStopsAtSpace(a: string, c: char, b: string)
    requires IsSpace(c)
    ensures WordLength(a + [c] + b) == WordLength(a)
    decreases |a|
  {
    if |a| > 0 && !IsSpace(a[0]) {
      assert (a + [c] + b)[1..] == a[1..] + [c] + b;
      WordLengthStopsAtSpace(a[1..], c, b);
    }
  }

  /** A whitespace character splits the words of the two sides apart. */
  lemma {:induction false} SplitAtSpace(a: string, c: char, b: string)
    requires IsSpace(c)
    ensures Split(a + [c] + b) == Split(a) + Split(b)
    decreases |a|
  {
    var s := a + [c] + b;
    if |a| == 0 {
      assert s[1..] == b;
    } else if IsSpace(a[0]) {
      assert s[1..] == a[1..] + [c] + b;
      SplitAtSpace(a[1..], c, b);
    } else {
      var n := WordLength(a);
      WordLengthStopsAtSpace(a, c, b);
      assert s[..n] == a[..n];
      assert s[n..] == a[n..] + [c] + b;
      SplitAtSpace(a[n..], c, b);
    }
  }

  /** Splitting a text joined with a whitespace separator gives the words of
      the parts: joining and re-splitting loses nothing but the spacing. */
  lemma {:induction false} SplitJoin(sep: string, parts: seq<string>)
    requires IsSpaceSeparator(sep)
    ensures Split(Join(sep, parts)) == SplitAll(parts)
  {
    if |parts| == 1 {
      assert SplitAll(parts) == Split(parts[0]) + SplitAll([]);
    } else if |parts| > 1 {
      assert sep == [sep[0]];
      SplitAtSpace(parts[0], sep[0], Join(sep, parts[1..]));
      SplitJoin(sep, parts[1..]);
    }
  }

  lemma {:induction false} WordLengthOfWord(w: string)
    requires forall k :: 0 <= k < |w| ==> !IsSpace(w[k])
    ensures WordLength(w) == |w|
  {
    if |w| > 0 {
      WordLengthOfWord(w[1..]);
    }
  }

  /** A word splits into itself. */
  lemma {:induction false} SplitWord(w: string)
    requires IsWord(w)
    ensures Split(w) == [w]
  {
    WordLengthOfWord(w);
    assert w[..|w|] == w && w[|w|..] == [];
  }

  lemma {:induction false} SplitAllWords(ws: seq<string>)
    requires forall k :: 0 <= k < |ws| ==> IsWord(ws[k])
    ensures SplitAll(ws) == ws
  {
    if |ws| > 0 {
      SplitWord(ws[0]);
      SplitAllWords(ws[1..]);
    }
  }

  /** Round trip: words joined by a whitespace separator split back into the
      same words. */
  lemma {:induction false} SplitJoinWords(sep: string, ws: seq<string>)
    requires IsSpaceSeparator(sep)
    requires forall k :: 0 <= k < |ws| ==> IsWord(ws[k])
    ensures Split(Join(sep, ws)) == ws
  {
    SplitJoin(sep, ws);
    SplitAllWords(ws);
  }

  lemma {:induction false} SplitAllAppend(a: seq<string>, b: seq<string>)
    ensures SplitAll(a + b) == SplitAll(a) + SplitAll(b)
  {
    if |a| > 0 {
      assert (a + b)[0] == a[0];
      assert (a + b)[1..] == a[1..] + b;
      SplitAllAppend(a[1..], b);
      calc {
        SplitAll(a + b);
        Split(a[0]) + SplitAll(a[1..] + b);
        Split(a[0]) + (SplitAll(a[1..]) + SplitAll(b));
        (Split(a[0]) + SplitAll(a[1..])) + SplitAll(b);
      }
    } else {
      assert a + b == b;
    }
  }

  /** Inserting one string between two runs of words and joining with
      spaces: re-splitting gives the words around it and the inserted
      string's own words between them. */
  lemma {:induction false} SplitJoinInsert(front: seq<string>, mid: string, back: seq<string>)
    requires forall k :: 0 <= k < |front| ==> IsWord(front[k])
    requires forall k :: 0 <= k < |back| ==> IsWord(back[k])
    ensures Split(Join(" ", front + [mid] + back)) == front + Split(mid) + back
  {
    SplitAllWords(front);
    SplitAllWords(back);
    SplitAllAppend(front + [mid], back);
    SplitAllAppend(front, [mid]);
    assert SplitAll([mid]) == Split(mid) + SplitAll([]);
    SplitJoin(" ", front + [mid] + back);
  }

  /** A string with no words is all whitespace. */
  lemma {:induction false} SplitEmptyAllSpace(s: string)
    requires Split(s) == []
    ensures forall k :: 0 <= k < |s| ==> IsSpace(s[k])
    decreases |s|
  {
    if |s| > 0 {
      SplitEmptyAllSpace(s[1..]);
      assert forall k :: 1 <= k < |s| ==> s[k] == s[1..][k - 1];
    }
  }

  /** A string that ends in a non-whitespace character has a word. */
  lemma {:induction false} SplitEndsInWord(s: string)
    requires |s| > 0 && !IsSpace(s[|s| - 1])
    ensures |Split(s)| >= 1
  {
    if Split(s) == [] {
      SplitEmptyAllSpace(s);
    }
  }

  // ---------------------------------------------------------------------
  // `s.split(sep)` with an explicit one-character separator

  /** `s.split(sep)`: the pieces between occurrences of `sep`, empty pieces
      included, so there is always at least one. */
  function SplitOn(s: string, sep: char): (pieces: seq<string>)
    ensures |pieces| >= 1
    ensures forall k :: 0 <= k < |pieces| ==> sep !in pieces[k]
    decreases |s|
  {
    if |s| == 0 then [""]
    else
      var rest := SplitOn(s[1..], sep);
      if s[0] == sep then [""] + rest
      else [[s[0]] + rest[0]] + rest[1..]
  }

  /** Joining the pieces with the separator gives back the string. */
  lemma {:induction false} JoinSplitOn(s: string, sep: char)
    ensures Join([sep], SplitOn(s, sep)) == s
    decreases |s|
  {
    if |s| > 0 {
      var rest := SplitOn(s[1..], sep);
      JoinSplitOn(s[1..], sep);
      if s[0] == sep {
        assert Join([sep], [""] + rest) == "" + [sep] + Join([sep], rest);
      } else if |rest| == 1 {
        assert SplitOn(s, sep) == [[s[0]] + rest[0]];
      } else {
        assert ([[s[0]] + rest[0]] + rest[1..])[1..] == rest[1..];
        assert Join([sep], rest) == rest[0] + [sep] + Join([sep], rest[1..]);
      }
    }
  }

  /** Pieces free of the separator, joined with it, split back into the
      same pieces. */
  lemma {:induction false} SplitOnJoin(parts: seq<string>, sep: char)
    requires |parts| >= 1
    requires forall k :: 0 <= k < |parts| ==> sep !in parts[k]
    ensures SplitOn(Join([sep], parts), sep) == parts
  {
    if |parts| == 1 {
      SplitOnFree(parts[0], sep);
    } else {
      SplitOnJoin(parts[1..], sep);
      SplitOnPrefix(parts[0], sep, Join([sep], parts[1..]));
    }
  }

  lemma {:induction false} SplitOnFree(s: string, sep: char)
    requires sep !in s
    ensures SplitOn(s, sep) == [s]
    decreases |s|
  {
    if |s| > 0 {
      assert s[0] != sep && sep !in s[1..];
      SplitOnFree(s[1..], sep);
      assert [s[0]] + s[1..] == s;
    }
  }

  lemma {:induction false} SplitOnPrefix(a: string, sep: char, b: string)
    requires sep !in a
    ensures SplitOn(a + [sep] + b, sep) == [a] + SplitOn(b, sep)
    decreases |a|
  {
    var s := a + [sep] + b;
    if |a| == 0 {
      assert s[1..] == b;
    } else {
      assert s[0] == a[0] && s[0] != sep;
      assert s[1..] == a[1..] + [sep] + b;
      SplitOnPrefix(a[1..], sep, b);
      assert [a[0]] + a[1..] == a;
    }
  }

  // ---------------------------------------------------------------------
  // `strip`, `lower` and `in`

  /** `s.strip(chars)` for the characters `drop` accepts. */
  function Trim(s: string, drop: char -> bool): (t: string)
    ensures |t| <= |s|
    decreases |s|
  {
    if |s| > 0 && drop(s[0]) then Trim(s[1..], drop)
    else if |s| > 0 && drop(s[|s| - 1]) then Trim(s[..|s| - 1], drop)
    else s
  }

  /** `s.strip()`: leading and trailing whitespace removed. */
  function Strip(s: string): string {
    Trim(s, IsSpace)
  }

  /** `c.lower()` on the ASCII range. */
  function LowerChar(c: char): char {
    if 'A' <= c <= 'Z' then (c as int + 32) as char else c
  }

  /** `s.lower()` on the ASCII range. */
  function Lower(s: string): (t: string)
    ensures |t| == |s|
  {
    seq(|s|, k requires 0 <= k < |s| => LowerChar(s[k]))
  }

  predicate StartsWith(s: string, prefix: string) {
    |prefix| <= |s| && s[..|prefix|] == prefix
  }

  /** `sub in s`: `sub` occurs in `s` at some position. */
  predicate Contains(s: string, sub: string)
    decreases |s|
  {
    StartsWith(s, sub) || (|s| > 0 && Contains(s[1..], sub))
  }

  /** `s.split(key, 1)[1]`: what follows the first occurrence of `key`. */
  function After(s: string, key: string): (rest: string)
    requires Contains(s, key)
    ensures |rest| <= |s|
    decreases |s|
  {
    if StartsWith(s, key) then s[|key|..] else After(s[1..], key)
  }

  /** What follows an occurrence of `key` in `s` is a suffix of `s` right
      after a copy of `key`. */
  lemma {:induction false} AfterIsSuffix(s: string, key: string)
    requires Contains(s, key)
    ensures |key| + |After(s, key)| <= |s|
    ensures s[|s| - |After(s, key)| - |key|..] == key + After(s, key)
    decreases |s|
  {
    if !StartsWith(s, key) {
      AfterIsSuffix(s[1..], key);
      assert s[1..][|s| - 1 - |After(s, key)| - |key|..] == s[|s| - |After(s, key)| - |key|..];
    } else {
      assert s == s[..|key|] + s[|key|..];
    }
  }

  // ---------------------------------------------------------------------
  // `str(n)` for naturals

  const Digits: string := "0123456789"

  /** `str(n)`: the decimal digits of `n`, without leading zeros. */
  function NatToString(n: nat): (s: string)
    ensures |s| >= 1
    ensures forall k :: 0 <= k < |s| ==> s[k] in Digits
  {
    if n < 10 then [Digits[n]] else NatToString(n / 10) + [Digits[n % 10]]
  }

  function DigitValue(c: char): nat {
    if '0' <= c <= '9' then (c as int - '0' as int) else 0
  }

  /** `int(s)` for a string of decimal digits. */
  function ParseNat(s: string): nat {
    if |s| == 0 then 0 else 10 * ParseNat(s[..|s| - 1]) + DigitValue(s[|s| - 1])
  }

  /** Round trip: reading back the digits `str(n)` prints gives `n`. */
  lemma {:induction false} ParseNatToString(n: nat)
    ensures ParseNat(NatToString(n)) == n
  {
    if n >= 10 {
      var s := NatToString(n);
      assert s[..|s| - 1] == NatToString(n / 10);
      ParseNatToString(n / 10);
    }
  }

  /** Distinct naturals print differently. */
  lemma {:induction false} NatToStringInjective(m: nat, n: nat)
    requires NatToString(m) == NatToString(n)
    ensures m == n
  {
    ParseNatToString(m);
    ParseNatToString(n);
  }
}
