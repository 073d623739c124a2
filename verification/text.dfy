/**
 * The JavaScript string operations the services rely on, written out over
 * `seq<char>`: `trim`, `includes`, `substring(0, n)`, `split` / `join`,
 * ASCII `toLowerCase`, and decimal rendering of counts.
 */
module Text {
  import opened Wrappers

  /** The characters JavaScript's `\s` matches and `String.prototype.trim` removes. */
  predicate IsSpace(c: char) {
    || c == '\t' || c == '\n' || c == '\U{000B}' || c == '\U{000C}' || c == '\r' || c == ' '
    || c == '\U{00A0}' || c == '\U{1680}' || ('\U{2000}' <= c <= '\U{200A}')
    || c == '\U{2028}' || c == '\U{2029}' || c == '\U{202F}' || c == '\U{205F}'
    || c == '\U{3000}' || c == '\U{FEFF}'
  }

  /** A string that is empty or holds only whitespace: `s.trim().length === 0`. */
  predicate IsBlank(s: string) {
    forall i :: 0 <= i < |s| ==> IsSpace(s[i])
  }

  /** Number of leading whitespace characters. */
  function LeadingSpace(s: string): (n: nat)
    ensures n <= |s|
    ensures forall i :: 0 <= i < n ==> IsSpace(s[i])
    ensures n < |s| ==> !IsSpace(s[n])
  {
    if |s| == 0 || !IsSpace(s[0]) then 0 else 1 + LeadingSpace(s[1..])
  }

  /** Number of trailing whitespace characters. */
  function TrailingSpace(s: string): (n: nat)
    ensures n <= |s|
    ensures forall i :: |s| - n <= i < |s| ==> IsSpace(s[i])
    ensures n < |s| ==> !IsSpace(s[|s| - n - 1])
  {
    if |s| == 0 || !IsSpace(s[|s| - 1]) then 0 else 1 + TrailingSpace(s[..|s| - 1])
  }

  /** `String.prototype.trimEnd`. */
  function TrimEnd(s: string): (r: string)
    ensures |r| <= |s| && r == s[..|r|]
    ensures forall i :: |r| <= i < |s| ==> IsSpace(s[i])
    ensures |r| == 0 || !IsSpace(r[|r| - 1])
  {
    s[..|s| - TrailingSpace(s)]
  }

  /** `String.prototype.trim`: drop leading and trailing whitespace. */
  function Trim(s: string): (r: string)
    ensures |r| <= |s|
    ensures exists a :: OccursAt(s, r, a) && IsBlank(s[..a]) && IsBlank(s[a + |r|..])
    ensures |r| == 0 || (!IsSpace(r[0]) && !IsSpace(r[|r| - 1]))
    ensures |r| == 0 <==> IsBlank(s)
  {
    var a := LeadingSpace(s);
    if a == |s| then assert OccursAt(s, [], 0) && IsBlank(s[..0]) && IsBlank(s[0..]); [] else
      var rest := s[a..];
      assert !IsSpace(rest[0]);
      var b := TrailingSpace(rest);
      assert b < |rest|;
      var r := rest[..|rest| - b];
      assert OccursAt(s, r, a);
      assert IsBlank(s[..a]);
      assert IsBlank(s[a + |r|..]) by {
        assert s[a + |r|..] == rest[|rest| - b..];
      }
      r
  }

  /** Trimming a trimmed string changes nothing. */
  lemma TrimIdempotent(s: string)
    ensures Trim(Trim(s)) == Trim(s)
  {
    var r := Trim(s);
    if |r| > 0 {
      assert LeadingSpace(r) == 0;
      assert r[0..] == r;
      assert TrailingSpace(r) == 0;
    }
  }

  /** `pat` occurs in `text` starting at index `i`. */
  predicate OccursAt(text: string, pat: string, i: int) {
    0 <= i && i + |pat| <= |text| && text[i..i + |pat|] == pat
  }

  /** `text.indexOf(pat, from)`: the first occurrence of `pat` at or after `from`. */
  function IndexOfFrom(text: string, pat: string, from: nat): (r: Option<nat>)
    decreases |text| - from
    ensures r.Some? ==> from <= r.value && OccursAt(text, pat, r.value)
    ensures r.Some? ==> forall j :: from <= j < r.value ==> !OccursAt(text, pat, j)
    ensures r.None? ==> forall j :: from <= j ==> !OccursAt(text, pat, j)
  {
    if from + |pat| > |text| then None
    else if text[from..from + |pat|] == pat then Some(from)
    else IndexOfFrom(text, pat, from + 1)
  }

  /** A pattern occurs at the start of any string it begins. */
  lemma OccursAtStart(pat: string, rest: string)
    ensures OccursAt(pat + rest, pat, 0)
  {
    assert (pat + rest)[..|pat|] == pat;
  }

  /** Prepending `x` shifts every occurrence by `|x|`. */
  lemma OccursShift(x: string, w: string, pat: string, k: int)
    requires OccursAt(w, pat, k)
    ensures OccursAt(x + w, pat, |x| + k)
  {
    assert (x + w)[|x| + k..|x| + k + |pat|] == w[k..k + |pat|];
  }

  /**
   * An occurrence at `i` is the first one from `from` on when no earlier
   * position holds the pattern's first character.
   */
  lemma FirstOccurrence(text: string, pat: string, from: nat, i: nat)
    requires |pat| > 0 && from <= i && OccursAt(text, pat, i)
    requires forall k :: from <= k < i ==> text[k] != pat[0]
    ensures IndexOfFrom(text, pat, from) == Some(i)
  {
    var r := IndexOfFrom(text, pat, from);
    assert r.Some?;
    assert text[r.value..r.value + |pat|][0] == text[r.value];
    assert r.value <= i;
  }

  /** A pattern whose first character does not occur from `from` on is not found. */
  lemma NoOccurrenceFrom(text: string, pat: string, from: nat)
    requires |pat| > 0
    requires forall k :: from <= k < |text| ==> text[k] != pat[0]
    ensures IndexOfFrom(text, pat, from) == None
  {
    forall j | from <= j
      ensures !OccursAt(text, pat, j)
    {
      if j < |text| {
        assert j + |pat| <= |text| ==> text[j..j + |pat|][0] == text[j];
      }
    }
  }

  /** `text.includes(pat)`. */
  predicate Contains(text: string, pat: string)
    ensures Contains(text, pat) <==> exists i :: OccursAt(text, pat, i)
  {
    IndexOfFrom(text, pat, 0).Some?
  }

  /** Some entry of `pats` occurs in `text`: `pats.some(p => text.includes(p))`. */
  predicate ContainsAny(text: string, pats: seq<string>)
    ensures ContainsAny(text, pats) <==> exists k :: 0 <= k < |pats| && Contains(text, pats[k])
  {
    if |pats| == 0 then false
    else Contains(text, pats[0]) || ContainsAny(text, pats[1..])
  }

  /** `s.substring(0, n)`: the longest prefix of length at most `n`. */
  function Truncate(s: string, n: nat): (r: string)
    ensures |r| <= n && |r| <= |s| && r == s[..|r|]
    ensures |s| <= n ==> r == s
    ensures |s| > n ==> |r| == n
  {
    if |s| <= n then s else s[..n]
  }

  /** `s.toLowerCase()` restricted to the ASCII letters. */
  function ToLower(s: string): (r: string)
    ensures |r| == |s|
    ensures forall i :: 0 <= i < |s| && !('A' <= s[i] <= 'Z') ==> r[i] == s[i]
    ensures forall i :: 0 <= i < |s| && 'A' <= s[i] <= 'Z' ==> r[i] == (s[i] as int + 32) as char
  {
    seq(|s|, i requires 0 <= i < |s| =>
      if 'A' <= s[i] <= 'Z' then (s[i] as int + 32) as char else s[i])
  }

  /** Number of occurrences of the character `c` in `s`. */
  function CountChar(s: string, c: char): nat {
    if |s| == 0 then 0 else (if s[0] == c then 1 else 0) + CountChar(s[1..], c)
  }

  /** `parts.join(sep)`; an empty array joins to the empty string. */
  function JoinWith(parts: seq<string>, sep: string): string {
    if |parts| == 0 then ""
    else if |parts| == 1 then parts[0]
    else parts[0] + sep + JoinWith(parts[1..], sep)
  }

  /** Joining a head onto a non-empty rest puts one separator between them. */
  lemma JoinCons(x: string, rest: seq<string>, sep: string)
    requires |rest| > 0
    ensures JoinWith([x] + rest, sep) == x + sep + JoinWith(rest, sep)
  {
    assert ([x] + rest)[1..] == rest;
  }

  /** Joining a non-empty list with one more part appends a separator and that part. */
  lemma {:induction false} JoinSnoc(parts: seq<string>, x: string, sep: string)
    requires |parts| > 0
    ensures JoinWith(parts + [x], sep) == JoinWith(parts, sep) + sep + x
    decreases |parts|
  {
    if |parts| == 1 {
      JoinCons(parts[0], [x], sep);
      assert parts + [x] == [parts[0]] + [x];
    } else {
      JoinSnoc(parts[1..], x, sep);
      assert (parts + [x])[1..] == parts[1..] + [x];
    }
  }

  /** Every part appears in the joined string. */
  lemma {:induction false} JoinContainsParts(parts: seq<string>, sep: string, k: nat)
    requires k < |parts|
    ensures Contains(JoinWith(parts, sep), parts[k])
    decreases |parts|
  {
    var j := JoinWith(parts, sep);
    if |parts| == 1 {
      assert OccursAt(j, parts[0], 0);
    } else if k == 0 {
      assert j == parts[0] + sep + JoinWith(parts[1..], sep);
      assert j[..|parts[0]|] == parts[0];
      assert OccursAt(j, parts[0], 0);
    } else {
      JoinContainsParts(parts[1..], sep, k - 1);
      var w := JoinWith(parts[1..], sep);
      var i :| OccursAt(w, parts[k], i);
      OccursShift(parts[0] + sep, w, parts[k], i);
    }
  }

  /** A part of a join still appears once text is put around the join. */
  lemma JoinedPartInContext(pre: string, parts: seq<string>, sep: string, post: string, k: nat)
    requires k < |parts|
    ensures Contains(pre + JoinWith(parts, sep) + post, parts[k])
  {
    var j := JoinWith(parts, sep);
    JoinContainsParts(parts, sep, k);
    var i :| OccursAt(j, parts[k], i);
    assert (j + post)[i..i + |parts[k]|] == j[i..i + |parts[k]|];
    OccursShift(pre, j + post, parts[k], i);
    assert pre + j + post == pre + (j + post);
  }

  /** `s.split(c)` for a one-character separator. */
  function Split(s: string, c: char): (parts: seq<string>)
    ensures |parts| >= 1
  {
    if |s| == 0 then [""]
    else
      var rest := Split(s[1..], c);
      if s[0] == c then [""] + rest else [[s[0]] + rest[0]] + rest[1..]
  }

  /** Splitting yields one more piece than there are separators, and no piece holds one. */
  lemma {:induction false} SplitShape(s: string, c: char)
    ensures |Split(s, c)| == CountChar(s, c) + 1
    ensures forall k :: 0 <= k < |Split(s, c)| ==> c !in Split(s, c)[k]
  {
    if |s| > 0 {
      SplitShape(s[1..], c);
    }
  }

  /** Joining the pieces back with the separator restores the string. */
  lemma {:induction false} SplitJoin(s: string, c: char)
    ensures JoinWith(Split(s, c), [c]) == s
  {
    if |s| > 0 {
      SplitJoin(s[1..], c);
      var rest := Split(s[1..], c);
      if s[0] == c {
        assert Split(s, c) == [""] + rest;
        assert Split(s, c)[1..] == rest;
      } else {
        var parts := Split(s, c);
        assert parts == [[s[0]] + rest[0]] + rest[1..];
        if |rest| == 1 {
          assert JoinWith(parts, [c]) == [s[0]] + rest[0];
        } else {
          assert parts[1..] == rest[1..];
          assert JoinWith(rest, [c]) == rest[0] + [c] + JoinWith(rest[1..], [c]);
        }
      }
    }
  }

  /** A piece free of the separator glues onto the first piece of what follows it. */
  lemma {:induction false} SplitPrefix(x: string, w: string, c: char)
    requires c !in x
    ensures Split(x + w, c) == [x + Split(w, c)[0]] + Split(w, c)[1..]
  {
    if |x| == 0 {
      var ws := Split(w, c);
      assert x + w == w && x + ws[0] == ws[0];
      assert ws == [ws[0]] + ws[1..];
    } else {
      var ws := Split(w, c);
      assert (x + w)[0] == x[0] && (x + w)[1..] == x[1..] + w;
      SplitPrefix(x[1..], w, c);
      var r := Split(x[1..] + w, c);
      assert r[0] == x[1..] + ws[0] && r[1..] == ws[1..];
      assert Split(x + w, c) == [[x[0]] + r[0]] + r[1..];
      assert [x[0]] + (x[1..] + ws[0]) == x + ws[0];
    }
  }

  /** Splitting a join of separator-free pieces gives the pieces back. */
  lemma {:induction false} JoinSplit(parts: seq<string>, c: char)
    requires |parts| >= 1
    requires forall k :: 0 <= k < |parts| ==> c !in parts[k]
    ensures Split(JoinWith(parts, [c]), c) == parts
  {
    if |parts| == 1 {
      SplitPrefix(parts[0], "", c);
      assert parts[0] + "" == parts[0];
    } else {
      var rest := JoinWith(parts[1..], [c]);
      JoinSplit(parts[1..], c);
      assert JoinWith(parts, [c]) == parts[0] + ([c] + rest);
      SplitPrefix(parts[0], [c] + rest, c);
      assert ([c] + rest)[0] == c && ([c] + rest)[1..] == rest;
      var s := Split([c] + rest, c);
      assert s == [""] + parts[1..];
      assert s[0] == "" && s[1..] == parts[1..];
      assert parts[0] + s[0] == parts[0];
      assert parts == [parts[0]] + parts[1..];
    }
  }

  predicate IsDigit(c: char) {
    '0' <= c <= '9'
  }

  function DigitChar(d: nat): (c: char)
    requires d < 10
    ensures IsDigit(c)
  {
    (d + 48) as char
  }

  function DigitValue(c: char): nat
    requires IsDigit(c)
  {
    c as int - 48
  }

  /** JavaScript's decimal rendering `${n}` of a non-negative integer. */
  function NatToString(n: nat): (s: string)
    ensures |s| >= 1
    ensures forall i :: 0 <= i < |s| ==> IsDigit(s[i])
    ensures |s| > 1 ==> s[0] != '0'
    decreases n
  {
    if n < 10 then [DigitChar(n)] else NatToString(n / 10) + [DigitChar(n % 10)]
  }

  /** The value of a string of decimal digits. */
  function DigitsValue(s: string): nat
    requires forall i :: 0 <= i < |s| ==> IsDigit(s[i])
  {
    if |s| == 0 then 0 else 10 * DigitsValue(s[..|s| - 1]) + DigitValue(s[|s| - 1])
  }

  /** Reading the rendered digits back gives the number: the rendering loses nothing. */
  lemma {:induction false} NatToStringRoundTrip(n: nat)
    ensures DigitsValue(NatToString(n)) == n
    decreases n
  {
    if n >= 10 {
      NatToStringRoundTrip(n / 10);
      var s := NatToString(n);
      assert s[..|s| - 1] == NatToString(n / 10);
    }
  }

  /** Distinct numbers render differently. */
  lemma NatToStringInjective(m: nat, n: nat)
    requires NatToString(m) == NatToString(n)
    ensures m == n
  {
    NatToStringRoundTrip(m);
    NatToStringRoundTrip(n);
  }

  /** The length of the run of digits a string starts with. */
  function DigitRun(s: string): (n: nat)
    ensures n <= |s|
  {
    if |s| == 0 || !IsDigit(s[0]) then 0 else 1 + DigitRun(s[1..])
  }

  /** The run is made of digits. */
  lemma {:induction false} DigitRunIsDigits(s: string)
    ensures forall i :: 0 <= i < DigitRun(s) ==> IsDigit(s[i])
  {
    if |s| > 0 && IsDigit(s[0]) {
      DigitRunIsDigits(s[1..]);
      assert forall i :: 1 <= i < DigitRun(s) ==> s[i] == s[1..][i - 1];
    }
  }

  /** Digits followed by a non-digit: the run ends where the digits do. */
  lemma {:induction false} DigitRunEndsAt(digits: string, rest: string)
    requires forall i :: 0 <= i < |digits| ==> IsDigit(digits[i])
    requires |rest| > 0 && !IsDigit(rest[0])
    ensures DigitRun(digits + rest) == |digits|
  {
    if |digits| > 0 {
      DigitRunEndsAt(digits[1..], rest);
      assert (digits + rest)[1..] == digits[1..] + rest;
    }
  }
}
