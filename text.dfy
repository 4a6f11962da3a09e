/**
 * The string functions the chat code relies on, with JavaScript's meaning: `trim`, the
 * 30-character title rule, `Date.now().toString()`, the temporary-id shape test,
 * `toLowerCase`/`includes` for the search box, and the concatenation of streamed fragments.
 */
module Text {

  /** ECMAScript's WhiteSpace and LineTerminator code points: what `String.prototype.trim` removes. */
  predicate IsJsWhitespace(c: char) {
    c == ' ' || c == '\t' || c == '\n' || c == '\U{000B}' || c == '\U{000C}' || c == '\r'
    || c == '\U{00A0}' || c == '\U{1680}' || ('\U{2000}' <= c <= '\U{200A}')
    || c == '\U{2028}' || c == '\U{2029}' || c == '\U{202F}' || c == '\U{205F}' || c == '\U{3000}'
    || c == '\U{FEFF}'
  }

  /** `s` without its leading whitespace: a suffix of `s` that does not start with whitespace. */
  function TrimStart(s: string): (r: string)
    ensures |r| <= |s| && r == s[|s| - |r|..]
    ensures r != [] ==> !IsJsWhitespace(r[0])
    ensures forall i :: 0 <= i < |s| - |r| ==> IsJsWhitespace(s[i])
  {
    if s != [] && IsJsWhitespace(s[0]) then TrimStart(s[1..]) else s
  }

  /** `s` without its trailing whitespace: a prefix of `s` that does not end with whitespace. */
  function TrimEnd(s: string): (r: string)
    ensures |r| <= |s| && r == s[..|r|]
    ensures r != [] ==> !IsJsWhitespace(r[|r| - 1])
    ensures forall i :: |r| <= i < |s| ==> IsJsWhitespace(s[i])
  {
    if s != [] && IsJsWhitespace(s[|s| - 1]) then TrimEnd(s[..|s| - 1]) else s
  }

  /** `s.trim()`. */
  function Trim(s: string): string {
    TrimEnd(TrimStart(s))
  }

  /** `!s.trim()`: the text is empty once trimmed. */
  predicate IsBlank(s: string) {
    Trim(s) == []
  }

  /** Blank text is exactly the text made of whitespace only. */
  lemma BlankIffAllWhitespace(s: string)
    ensures IsBlank(s) <==> forall i :: 0 <= i < |s| ==> IsJsWhitespace(s[i])
  {
  }

  /** Trimming is idempotent, so a trimmed non-blank title stays non-blank. */
  lemma TrimTrimmed(s: string)
    ensures Trim(Trim(s)) == Trim(s)
  {
    var t := Trim(s);
    if t != [] {
      assert !IsJsWhitespace(t[0]) by {
        var u := TrimStart(s);
        assert t == u[..|t|];
      }
    }
  }

  /** Length of a conversation title before the ellipsis is added. */
  const TitleLength: nat := 30

  /**
   * `content.slice(0, 30) + (content.length > 30 ? '...' : '')`: the title both the client and
   * the server derive from a first message.
   */
  function DerivedTitle(content: string): (r: string)
    ensures |content| <= TitleLength ==> r == content
    ensures |content| > TitleLength ==> |r| == TitleLength + 3
    ensures |content| > TitleLength ==> r[..TitleLength] == content[..TitleLength] && r[TitleLength..] == "..."
  {
    if |content| > TitleLength then content[..TitleLength] + "..." else content
  }

  /** `10^k`. */
  function Pow10(k: nat): (r: nat)
    ensures r >= 1
  {
    if k == 0 then 1 else 10 * Pow10(k - 1)
  }

  /** The decimal digit for `d`. */
  function Digit(d: nat): (c: char)
    requires d < 10
    ensures '0' <= c <= '9'
  {
    ('0' as int + d) as char
  }

  predicate IsDigit(c: char) {
    '0' <= c <= '9'
  }

  /** `n.toString()` for a non-negative integer such as `Date.now()`. */
  function DecimalString(n: nat): (r: string)
    ensures |r| >= 1
    ensures forall i :: 0 <= i < |r| ==> IsDigit(r[i])
  {
    if n < 10 then [Digit(n)] else DecimalString(n / 10) + [Digit(n % 10)]
  }

  /** Distinct clock readings give distinct decimal ids. */
  lemma {:induction false} DecimalStringInjective(a: nat, b: nat)
    requires DecimalString(a) == DecimalString(b)
    ensures a == b
  {
    var r := DecimalString(a);
    if a >= 10 && b >= 10 {
      assert DecimalString(a / 10) == r[..|r| - 1] == DecimalString(b / 10);
      DecimalStringInjective(a / 10, b / 10);
      assert Digit(a % 10) == r[|r| - 1] == Digit(b % 10);
    } else if a < 10 && b < 10 {
      assert Digit(a) == r[0] == Digit(b);
    }
  }

  /** A decimal rendering has at most `k` digits exactly when the number is below `10^k`. */
  lemma {:induction false} DecimalStringLength(n: nat, k: nat)
    requires k >= 1
    ensures |DecimalString(n)| <= k <==> n < Pow10(k)
  {
    if n >= 10 {
      if k == 1 {
        assert |DecimalString(n / 10)| >= 1;
      } else {
        DecimalStringLength(n / 10, k - 1);
        assert n / 10 < Pow10(k - 1) <==> n < 10 * Pow10(k - 1);
      }
    } else {
      PowMonotone(1, k);
    }
  }

  lemma {:induction false} PowMonotone(j: nat, k: nat)
    requires j <= k
    ensures Pow10(j) <= Pow10(k)
  {
    if j < k {
      PowMonotone(j, k - 1);
    }
  }

  /**
   * `!isNaN(s)` restricted to the strings this code meets: the empty string (which `Number`
   * reads as 0) and decimal numerals. Other numeric spellings are not modelled.
   */
  predicate LooksNumeric(s: string) {
    forall i :: 0 <= i < |s| ==> IsDigit(s[i])
  }

  /** `!isNaN(chatId) && chatId.length < 20`: the shape of a locally generated conversation id. */
  predicate IsTemporaryId(s: string) {
    LooksNumeric(s) && |s| < 20
  }

  /** An id made from a clock reading below `10^19` milliseconds has the temporary shape. */
  lemma ClockIdIsTemporary(t: nat)
    requires t < Pow10(19)
    ensures IsTemporaryId(DecimalString(t))
  {
    DecimalStringLength(t, 19);
  }

  /** A 24-character store id is never taken for a temporary one. */
  lemma DurableIdIsNotTemporary(s: string)
    requires |s| == 24
    ensures !IsTemporaryId(s)
  {
  }

  /** ASCII `toLowerCase` for one character. */
  function LowerChar(c: char): (r: char)
    ensures 'A' <= c <= 'Z' ==> r as int == c as int + 32
    ensures !('A' <= c <= 'Z') ==> r == c
  {
    if 'A' <= c <= 'Z' then (c as int + 32) as char else c
  }

  /** `s.toLowerCase()`, letter by letter. */
  function ToLower(s: string): (r: string)
    ensures |r| == |s|
    ensures forall i :: 0 <= i < |r| ==> !('A' <= r[i] <= 'Z')
    ensures forall i :: 0 <= i < |s| && !('A' <= s[i] <= 'Z') ==> r[i] == s[i]
  {
    seq(|s|, i requires 0 <= i < |s| => LowerChar(s[i]))
  }

  /** `needle` occurs in `haystack` starting at index `i`. */
  predicate OccursAt(haystack: string, needle: string, i: int) {
    0 <= i && i + |needle| <= |haystack| && haystack[i..i + |needle|] == needle
  }

  /** `haystack.includes(needle)`, searched from the left. */
  function Contains(haystack: string, needle: string): bool {
    needle <= haystack || (haystack != [] && Contains(haystack[1..], needle))
  }

  /** `Contains` holds exactly when the needle occurs at some index of the haystack. */
  lemma {:induction false} ContainsIff(haystack: string, needle: string)
    ensures Contains(haystack, needle) <==> exists i :: OccursAt(haystack, needle, i)
  {
    if haystack != [] {
      ContainsIff(haystack[1..], needle);
    }
    if Contains(haystack, needle) {
      if needle <= haystack {
        assert OccursAt(haystack, needle, 0);
      } else {
        var tail := haystack[1..];
        var j :| OccursAt(tail, needle, j);
        assert haystack[j + 1..j + 1 + |needle|] == tail[j..j + |needle|];
        assert OccursAt(haystack, needle, j + 1);
      }
    }
    if exists i :: OccursAt(haystack, needle, i) {
      var i :| OccursAt(haystack, needle, i);
      if i == 0 {
        assert needle <= haystack;
      } else {
        var tail := haystack[1..];
        assert tail[i - 1..i - 1 + |needle|] == haystack[i..i + |needle|];
        assert OccursAt(tail, needle, i - 1);
      }
    }
  }

  /** The concatenation of streamed fragments in arrival order. */
  function Concat(fragments: seq<string>): string {
    if fragments == [] then "" else Concat(fragments[..|fragments| - 1]) + fragments[|fragments| - 1]
  }

  /** Concatenation of two batches of fragments is the concatenation of their texts. */
  lemma {:induction false} ConcatAppend(a: seq<string>, b: seq<string>)
    ensures Concat(a + b) == Concat(a) + Concat(b)
  {
    if b != [] {
      var b' := b[..|b| - 1];
      assert (a + b)[..|a + b| - 1] == a + b';
      ConcatAppend(a, b');
    } else {
      assert a + b == a;
    }
  }

  /** The text accumulated after `k + 1` fragments is the text after `k` plus fragment `k`. */
  lemma ConcatStep(fragments: seq<string>, k: nat)
    requires k < |fragments|
    ensures Concat(fragments[..k + 1]) == Concat(fragments[..k]) + fragments[k]
  {
    assert fragments[..k + 1][..k] == fragments[..k];
  }
}
