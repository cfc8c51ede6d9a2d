/** The pieces of Rust's string library that the core relies on, with the
    semantics of `str`: case mapping for the key tables, `trim` (Unicode
    White_Space), `lines`, `starts_with`, `replace`, `split`, and
    `u32::from_str` together with `{}` formatting of a `u32`. */
module Text {
  import opened Wrappers

  // ---------------------------------------------------------------------
  // Case mapping

  /** `char::to_lowercase` restricted to what the key tables can observe:
      ASCII capitals, and U+212A KELVIN SIGN, the one non-ASCII character
      whose lowercase form is an ASCII letter. */
  function LowerChar(c: char): char
  {
    if 'A' <= c <= 'Z' then (c as int + 32) as char
    else if c == '\U{212A}' then 'k'
    else c
  }

  /** `str::to_lowercase`, character by character. */
  function Lower(s: string): (r: string)
    ensures |r| == |s|
  {
    seq(|s|, i requires 0 <= i < |s| => LowerChar(s[i]))
  }

  lemma LowerIdempotent(s: string)
    ensures Lower(Lower(s)) == Lower(s)
  {
    var once := Lower(s);
    forall i | 0 <= i < |s|
      ensures Lower(once)[i] == once[i]
    {
      assert once[i] == LowerChar(s[i]);
    }
  }

  /** No character of `s` changes under lower-casing. */
  predicate IsLowerCase(s: string)
  {
    forall i :: 0 <= i < |s| ==> LowerChar(s[i]) == s[i]
  }

  lemma LowerOfLowerCase(s: string)
    requires IsLowerCase(s)
    ensures Lower(s) == s
  {
  }

  /** `char::to_ascii_uppercase`. */
  function AsciiUpper(c: char): (d: char)
    ensures 'a' <= c <= 'z' ==> d as int == c as int - 32
    ensures !('a' <= c <= 'z') ==> d == c
  {
    if 'a' <= c <= 'z' then (c as int - 32) as char else c
  }

  // ---------------------------------------------------------------------
  // Trimming

  /** The Unicode White_Space property, which `str::trim` strips. */
  predicate IsWhitespace(c: char)
  {
    || ('\t' <= c <= '\r')
    || c == ' '
    || c == '\U{0085}'
    || c == '\U{00A0}'
    || c == '\U{1680}'
    || ('\U{2000}' <= c <= '\U{200A}')
    || c == '\U{2028}'
    || c == '\U{2029}'
    || c == '\U{202F}'
    || c == '\U{205F}'
    || c == '\U{3000}'
  }

  /** Drops the longest prefix whose characters all satisfy `strip`. */
  function TrimStartWhere(s: string, strip: char -> bool): (r: string)
    ensures |r| <= |s| && r == s[|s| - |r|..]
    ensures r != [] ==> !strip(r[0])
    ensures forall i :: 0 <= i < |s| - |r| ==> strip(s[i])
  {
    if s != [] && strip(s[0]) then TrimStartWhere(s[1..], strip) else s
  }

  /** Drops the longest suffix whose characters all satisfy `strip`. */
  function TrimEndWhere(s: string, strip: char -> bool): (r: string)
    ensures |r| <= |s| && r == s[..|r|]
    ensures r != [] ==> !strip(r[|r| - 1])
    ensures forall i :: |r| <= i < |s| ==> strip(s[i])
  {
    if s != [] && strip(s[|s| - 1]) then TrimEndWhere(s[..|s| - 1], strip) else s
  }

  /** `str::trim`. */
  function Trim(s: string): (r: string)
    ensures |r| <= |s|
    ensures r != [] ==> !IsWhitespace(r[0]) && !IsWhitespace(r[|r| - 1])
  {
    TrimEndWhere(TrimStartWhere(s, IsWhitespace), IsWhitespace)
  }

  /** The test for one given character. */
  function IsChar(c: char): char -> bool
  {
    x => x == c
  }

  /** `str::trim_matches(c)` for a single character `c`. */
  function TrimMatches(s: string, c: char): (r: string)
    ensures |r| <= |s|
    ensures r != [] ==> r[0] != c && r[|r| - 1] != c
  {
    TrimEndWhere(TrimStartWhere(s, IsChar(c)), IsChar(c))
  }

  lemma {:induction false} TrimStartSkipsPadding(pad: string, s: string, strip: char -> bool)
    requires forall i :: 0 <= i < |pad| ==> strip(pad[i])
    ensures TrimStartWhere(pad + s, strip) == TrimStartWhere(s, strip)
    decreases |pad|
  {
    if pad == [] {
      assert pad + s == s;
    } else {
      assert (pad + s)[0] == pad[0];
      assert (pad + s)[1..] == pad[1..] + s;
      TrimStartSkipsPadding(pad[1..], s, strip);
    }
  }

  lemma {:induction false} TrimEndSkipsPadding(s: string, pad: string, strip: char -> bool)
    requires forall i :: 0 <= i < |pad| ==> strip(pad[i])
    ensures TrimEndWhere(s + pad, strip) == TrimEndWhere(s, strip)
    decreases |pad|
  {
    if pad == [] {
      assert s + pad == s;
    } else {
      var n := |pad|;
      assert (s + pad)[|s + pad| - 1] == pad[n - 1];
      assert (s + pad)[..|s + pad| - 1] == s + pad[..n - 1];
      TrimEndSkipsPadding(s, pad[..n - 1], strip);
    }
  }

  lemma AppendAssociative(a: string, b: string, c: string)
    ensures a + b + c == a + (b + c)
  {
  }

  /** Trimming both ends of a string padded on both sides with characters
      to strip gives back the inner string, when it neither starts nor ends
      with such a character. */
  lemma TrimWherePadded(pre: string, s: string, post: string, strip: char -> bool)
    requires forall i :: 0 <= i < |pre| ==> strip(pre[i])
    requires forall i :: 0 <= i < |post| ==> strip(post[i])
    requires s != [] ==> !strip(s[0]) && !strip(s[|s| - 1])
    ensures TrimEndWhere(TrimStartWhere(pre + s + post, strip), strip) == s
  {
    var body := s + post;
    AppendAssociative(pre, s, post);
    TrimStartSkipsPadding(pre, body, strip);
    if s == [] {
      assert body == post + [];
      TrimStartSkipsPadding(post, [], strip);
    } else {
      assert body[0] == s[0];
      assert TrimStartWhere(body, strip) == body;
      TrimEndSkipsPadding(s, post, strip);
      assert TrimEndWhere(s, strip) == s;
    }
  }

  /** Trimming a string that neither starts nor ends with white space,
      after any amount of leading white space, gives that string back. */
  lemma TrimAfterPadding(pad: string, s: string)
    requires forall i :: 0 <= i < |pad| ==> IsWhitespace(pad[i])
    requires s != [] ==> !IsWhitespace(s[0]) && !IsWhitespace(s[|s| - 1])
    ensures Trim(pad + s) == s
  {
    TrimStartSkipsPadding(pad, s, IsWhitespace);
    if s != [] {
      assert TrimStartWhere(s, IsWhitespace) == s;
      assert TrimEndWhere(s, IsWhitespace) == s;
    }
  }

  // ---------------------------------------------------------------------
  // Searching and splitting

  predicate StartsWith(s: string, prefix: string)
  {
    |prefix| <= |s| && s[..|prefix|] == prefix
  }

  /** Index of the first `c` in `s`, or `|s|` when there is none. */
  function IndexOf(s: string, c: char): (k: nat)
    ensures k <= |s|
    ensures k < |s| ==> s[k] == c
    ensures forall i :: 0 <= i < k ==> s[i] != c
  {
    if s == [] then 0
    else if s[0] == c then 0
    else 1 + IndexOf(s[1..], c)
  }

  /** `s.split(c).next().unwrap()`: the text before the first `c`. */
  function BeforeFirst(s: string, c: char): (r: string)
    ensures c !in r
    ensures StartsWith(s, r)
    ensures |r| < |s| ==> s[|r|] == c
  {
    s[..IndexOf(s, c)]
  }

  /** Removes one `'\r'` that ends a line. */
  function StripCr(line: string): string
  {
    if line != [] && line[|line| - 1] == '\r' then line[..|line| - 1] else line
  }

  /** `str::lines`: split at each `'\n'`, dropping a `'\r'` right before it;
      a final line ending is optional and yields no empty last line. */
  function Lines(s: string): (r: seq<string>)
    ensures forall i :: 0 <= i < |r| ==> '\n' !in r[i]
    decreases |s|
  {
    if s == [] then []
    else
      var k := IndexOf(s, '\n');
      if k == |s| then [s]
      else [StripCr(s[..k])] + Lines(s[k + 1..])
  }

  lemma LinesCons(line: string, rest: string)
    requires '\n' !in line
    ensures Lines(line + "\n" + rest) == [StripCr(line)] + Lines(rest)
  {
    var s := line + "\n" + rest;
    assert s[|line|] == '\n';
    assert forall i :: 0 <= i < |line| ==> s[i] == line[i];
    assert IndexOf(s, '\n') == |line|;
    assert s[..|line|] == line;
    assert s[|line| + 1..] == rest;
  }

  /** The lines, each followed by a line feed. */
  function Terminated(lines: seq<string>): (text: string)
    ensures lines != [] ==> |text| > |lines[0]| && text[..|lines[0]| + 1] == lines[0] + "\n"
    ensures lines != [] ==> text[|text| - 1] == '\n'
  {
    if lines == [] then [] else lines[0] + "\n" + Terminated(lines[1..])
  }

  /** Splitting terminated lines gives them back, when none holds a line
      feed or ends with a carriage return. */
  lemma {:induction false} LinesOfTerminated(lines: seq<string>)
    requires forall i :: 0 <= i < |lines| ==> '\n' !in lines[i] && StripCr(lines[i]) == lines[i]
    ensures Lines(Terminated(lines)) == lines
  {
    if lines != [] {
      LinesCons(lines[0], Terminated(lines[1..]));
      LinesOfTerminated(lines[1..]);
    }
  }

  // ---------------------------------------------------------------------
  // Replacement

  /** `str::replace(pat, rep)`: every occurrence of `pat`, found left to
      right without overlap, is replaced by `rep`. */
  function ReplaceAll(s: string, pat: string, rep: string): string
    requires pat != []
    decreases |s|
  {
    if |s| < |pat| then s
    else if s[..|pat|] == pat then rep + ReplaceAll(s[|pat|..], pat, rep)
    else [s[0]] + ReplaceAll(s[1..], pat, rep)
  }

  /** Replacing a single character by text that does not contain it
      removes every occurrence of that character. */
  lemma {:induction false} ReplaceCharRemovesIt(s: string, c: char, rep: string)
    requires c !in rep
    ensures c !in ReplaceAll(s, [c], rep)
    decreases |s|
  {
    if |s| >= 1 {
      ReplaceCharRemovesIt(s[1..], c, rep);
    }
  }

  /** Text without `c` is copied unchanged in front of what replacing `c`
      gives for the rest. */
  lemma {:induction false} ReplaceCharAfterPlain(plain: string, rest: string, c: char, rep: string)
    requires c !in plain
    ensures ReplaceAll(plain + rest, [c], rep) == plain + ReplaceAll(rest, [c], rep)
    decreases |plain|
  {
    if plain != [] {
      var s := plain + rest;
      assert plain[0] != c && c !in plain[1..];
      assert s[..1] == [plain[0]] && s[0] == plain[0];
      assert s[1..] == plain[1..] + rest;
      ReplaceCharAfterPlain(plain[1..], rest, c, rep);
      calc {
        ReplaceAll(s, [c], rep);
        [s[0]] + ReplaceAll(s[1..], [c], rep);
        [plain[0]] + (plain[1..] + ReplaceAll(rest, [c], rep));
        { assert [plain[0]] + plain[1..] == plain; }
        plain + ReplaceAll(rest, [c], rep);
      }
    } else {
      assert plain + rest == rest;
    }
  }

  /** Every `c` in `r` comes directly after a `d`. */
  predicate AlwaysPreceded(r: string, c: char, d: char)
  {
    forall i :: 0 <= i < |r| && r[i] == c ==> 0 < i && r[i - 1] == d
  }

  /** Replacing `c` by `[d, c]` leaves every `c` directly after a `d`. */
  lemma {:induction false} ReplaceCharPrefixes(s: string, c: char, d: char)
    requires c != d
    ensures AlwaysPreceded(ReplaceAll(s, [c], [d, c]), c, d)
    decreases |s|
  {
    if |s| >= 1 {
      ReplaceCharPrefixes(s[1..], c, d);
      var tail := ReplaceAll(s[1..], [c], [d, c]);
      var r := ReplaceAll(s, [c], [d, c]);
      if s[..1] == [c] {
        assert r == [d, c] + tail;
        forall i | 0 <= i < |r| && r[i] == c
          ensures 0 < i && r[i - 1] == d
        {
          if i >= 2 {
            assert r[i] == tail[i - 2];
            if i >= 3 {
              assert r[i - 1] == tail[i - 3];
            }
          }
        }
      } else {
        assert s[0] != c;
        assert r == [s[0]] + tail;
        forall i | 0 <= i < |r| && r[i] == c
          ensures 0 < i && r[i - 1] == d
        {
          assert r[i] == tail[i - 1];
          if i >= 2 {
            assert r[i - 1] == tail[i - 2];
          }
        }
      }
    }
  }

  predicate OccursAt(s: string, pat: string, k: nat)
  {
    k + |pat| <= |s| && s[k..k + |pat|] == pat
  }

  /** Text with no occurrence of `pat` is left unchanged. */
  lemma {:induction false} ReplaceAbsent(s: string, pat: string, rep: string)
    requires pat != []
    requires forall k: nat :: !OccursAt(s, pat, k)
    ensures ReplaceAll(s, pat, rep) == s
    decreases |s|
  {
    if |s| >= |pat| {
      assert !OccursAt(s, pat, 0);
      forall k: nat
        ensures !OccursAt(s[1..], pat, k)
      {
        assert !OccursAt(s, pat, k + 1);
        if k + |pat| <= |s[1..]| {
          assert s[1..][k..k + |pat|] == s[k + 1..k + 1 + |pat|];
        }
      }
      ReplaceAbsent(s[1..], pat, rep);
      assert [s[0]] + s[1..] == s;
    }
  }

  /** Replacing character by character. */
  function MapChar(s: string, from: char, to: char): (r: string)
    ensures |r| == |s|
    ensures forall i :: 0 <= i < |s| ==> r[i] == (if s[i] == from then to else s[i])
  {
    seq(|s|, i requires 0 <= i < |s| => if s[i] == from then to else s[i])
  }

  /** `replace` with a one-character pattern and a one-character
      replacement maps the string character by character. */
  lemma {:induction false} ReplaceCharIsMap(s: string, from: char, to: char)
    ensures ReplaceAll(s, [from], [to]) == MapChar(s, from, to)
    decreases |s|
  {
    if |s| >= 1 {
      ReplaceCharIsMap(s[1..], from, to);
      assert MapChar(s, from, to) == [if s[0] == from then to else s[0]] + MapChar(s[1..], from, to);
    }
  }

  // ---------------------------------------------------------------------
  // Decimal numbers

  predicate IsDigit(c: char)
  {
    '0' <= c <= '9'
  }

  predicate AllDigits(s: string)
  {
    forall i :: 0 <= i < |s| ==> IsDigit(s[i])
  }

  function DigitsValue(s: string): nat
    requires AllDigits(s)
    decreases |s|
  {
    if s == [] then 0
    else DigitsValue(s[..|s| - 1]) * 10 + (s[|s| - 1] as int - '0' as int)
  }

  /** `u32::from_str`: one optional leading `+`, then at least one decimal
      digit, and a value that fits in 32 bits. */
  function ParseU32(s: string): (r: Option<u32>)
    ensures r.Some? ==> s != [] && (IsDigit(s[0]) || s[0] == '+')
    ensures r.Some? ==> forall i :: 1 <= i < |s| ==> IsDigit(s[i])
  {
    var digits := if s != [] && s[0] == '+' then s[1..] else s;
    if digits == [] || !AllDigits(digits) then None
    else if DigitsValue(digits) < U32_LIMIT then Some(DigitsValue(digits))
    else None
  }

  function DigitChar(d: nat): (c: char)
    requires d < 10
    ensures IsDigit(c) && c as int - '0' as int == d
  {
    ('0' as int + d) as char
  }

  /** `format!("{}", n)`. */
  function DecimalString(n: nat): (s: string)
    ensures s != []
    decreases n
  {
    if n < 10 then [DigitChar(n)] else DecimalString(n / 10) + [DigitChar(n % 10)]
  }

  lemma {:induction false} DecimalStringValue(n: nat)
    ensures AllDigits(DecimalString(n))
    ensures DigitsValue(DecimalString(n)) == n
    decreases n
  {
    if n >= 10 {
      DecimalStringValue(n / 10);
      var s := DecimalString(n);
      var front := DecimalString(n / 10);
      assert s == front + [DigitChar(n % 10)];
      assert s[..|s| - 1] == front;
    }
  }

  /** Parsing what `{}` prints for a `u32` gives the number back. */
  lemma ParseDecimalRoundTrip(n: u32)
    ensures ParseU32(DecimalString(n)) == Some(n)
  {
    DecimalStringValue(n);
    var s := DecimalString(n);
    assert IsDigit(s[0]);
  }
}
