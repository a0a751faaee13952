/** Masking of bot tokens in log lines. Two filters do it with slightly
    different patterns and replacements:
      - `TelegramRequestFilter` (Back-end/core/logging_filters.py) replaces
        `bot\d+:[A-Za-z0-9_\-]+` by `bot***:***`;
      - `TokenMaskingFilter` (utils/loging_setup.py) replaces `bot\d+:[\w-]+`
        by `bot[REDACTED]`.
    `re.sub` scans left to right, replaces each leftmost greedy match and
    continues after it. `\d` and `\w` are taken over ASCII. */
module LogMasking {
  import opened Strings

  /** Which of the two filters' patterns and replacements. */
  datatype Style = TelegramStyle | RedactedStyle

  /** The class of characters after the colon. */
  predicate InSecret(c: char, k: Style) {
    match k
    case TelegramStyle => IsAsciiLetter(c) || IsAsciiDigit(c) || c == '_' || c == '-'
    case RedactedStyle => IsWordChar(c) || c == '-'
  }

  function Replacement(k: Style): (r: string)
    ensures |r| >= 4 && r[0] == 'b' && r[1] == 'o' && r[2] == 't'
    ensures !IsAsciiDigit(r[3]) && r[3] != ':' && !InSecret(r[3], k)
    ensures forall i :: 1 <= i < |r| ==> r[i] != 'b'
  {
    match k
    case TelegramStyle => "bot***:***"
    case RedactedStyle => "bot[REDACTED]"
  }

  /** Length of the longest prefix of `s` made of digits. */
  function DigitRun(s: string): (n: nat)
    ensures n <= |s|
    ensures forall i :: 0 <= i < n ==> IsAsciiDigit(s[i])
    ensures n < |s| ==> !IsAsciiDigit(s[n])
  {
    if s == [] || !IsAsciiDigit(s[0]) then 0 else 1 + DigitRun(s[1..])
  }

  /** Length of the longest prefix of `s` inside the secret class. */
  function SecretRun(s: string, k: Style): (n: nat)
    ensures n <= |s|
    ensures forall i :: 0 <= i < n ==> InSecret(s[i], k)
    ensures n < |s| ==> !InSecret(s[n], k)
  {
    if s == [] || !InSecret(s[0], k) then 0 else 1 + SecretRun(s[1..], k)
  }

  /** The part of the pattern after `bot` matches at the start of `y`. */
  predicate AfterBot(y: string, k: Style) {
    var d := DigitRun(y);
    d > 0 && d + 1 < |y| && y[d] == ':' && InSecret(y[d + 1], k)
  }

  /** The pattern matches at the start of `s`. */
  predicate HasMatch(s: string, k: Style) {
    |s| >= 3 && s[0] == 'b' && s[1] == 'o' && s[2] == 't' && AfterBot(s[3..], k)
  }

  /** Length of the greedy match at the start of `s`. */
  function MatchLen(s: string, k: Style): (m: nat)
    requires HasMatch(s, k)
    ensures 6 <= m <= |s|
  {
    var d := DigitRun(s[3..]);
    3 + d + 1 + SecretRun(s[3 + d + 1..], k)
  }

  /** `re.sub(pattern, replacement, s)`. */
  function Mask(s: string, k: Style): (r: string)
    decreases |s|
  {
    if s == [] then []
    else if HasMatch(s, k) then Replacement(k) + Mask(s[MatchLen(s, k)..], k)
    else [s[0]] + Mask(s[1..], k)
  }

  /** No token starts anywhere in `s`. */
  predicate TokenFree(s: string, k: Style) {
    forall i :: 0 <= i < |s| ==> !HasMatch(s[i..], k)
  }

  /** A string with no match anywhere is left unchanged. */
  lemma {:induction false} MaskNoMatch(s: string, k: Style)
    requires TokenFree(s, k)
    ensures Mask(s, k) == s
  {
    if s != [] {
      assert s[0..] == s;
      forall i | 0 <= i < |s[1..]|
        ensures !HasMatch(s[1..][i..], k)
      {
        assert s[1..][i..] == s[i + 1..];
      }
      MaskNoMatch(s[1..], k);
    }
  }

  /** The masked string never contains a bot token: at every position the
      pattern fails. */
  lemma {:induction false} MaskLeavesNoToken(s: string, k: Style)
    ensures TokenFree(Mask(s, k), k)
  {
    var r := Mask(s, k);
    if s == [] {
    } else if HasMatch(s, k) {
      var tail := s[MatchLen(s, k)..];
      var rest := Mask(tail, k);
      assert r == Replacement(k) + rest;
      MaskLeavesNoToken(tail, k);
      ReplacementNeverMatches(rest, k);
    } else {
      var rest := Mask(s[1..], k);
      assert r == [s[0]] + rest;
      MaskLeavesNoToken(s[1..], k);
      assert [s[0]] + s[1..] == s;
      NoNewTokenAtFront([s[0]], s[1..], k);
      assert r[0..] == r;
      forall i | 0 <= i < |r|
        ensures !HasMatch(r[i..], k)
      {
        if i > 0 {
          assert r[i..] == rest[i - 1..];
        }
      }
    }
  }

  /** Masking twice is masking once. */
  lemma MaskIdempotent(s: string, k: Style)
    ensures Mask(Mask(s, k), k) == Mask(s, k)
  {
    MaskLeavesNoToken(s, k);
    MaskNoMatch(Mask(s, k), k);
  }

  /** Masking only ever replaces a whole token, so text without "bot" is left
      alone. */
  lemma {:induction false} MaskWithoutBot(s: string, k: Style)
    requires !Contains(s, "bot")
    ensures Mask(s, k) == s
  {
    forall i | 0 <= i < |s|
      ensures !HasMatch(s[i..], k)
    {
      if HasMatch(s[i..], k) {
        assert s[i..i + 3] == "bot";
        assert OccursAt(s, "bot", i);
        ContainsIff(s, "bot");
      }
    }
    MaskNoMatch(s, k);
  }

  // ------------------------------------------------------------------
  // Helpers for MaskLeavesNoToken
  // ------------------------------------------------------------------

  lemma {:induction false} DigitRunPrefix(s: string, n: nat)
    requires DigitRun(s) < n <= |s|
    ensures DigitRun(s[..n]) == DigitRun(s)
  {
    if s != [] && IsAsciiDigit(s[0]) {
      assert s[..n][1..] == s[1..][..n - 1];
      DigitRunPrefix(s[1..], n - 1);
    }
  }

  /** A match that stops before a character the pattern cannot use at
      position `n` is already a match of the first `n` characters. */
  lemma Blocked(x: string, n: nat, k: Style)
    requires 3 <= n < |x| && HasMatch(x, k)
    requires !IsAsciiDigit(x[n]) && x[n] != ':' && !InSecret(x[n], k)
    ensures HasMatch(x[..n], k)
  {
    var y := x[3..];
    var d := DigitRun(y);
    assert y[n - 3] == x[n];
    assert d + 1 < n - 3;
    assert x[..n][3..] == y[..n - 3];
    DigitRunPrefix(y, n - 3);
  }

  /** A match of a prefix is a match of the whole. */
  lemma Extended(x: string, n: nat, k: Style)
    requires n <= |x| && HasMatch(x[..n], k)
    ensures HasMatch(x, k)
  {
    var y := x[3..];
    assert x[..n][3..] == y[..n - 3];
    DigitRunPrefix(y, n - 3);
  }

  /** Masking the rest of a string never creates a token that starts in the
      text before it. */
  lemma {:induction false} NoNewTokenAtFront(q: string, s: string, k: Style)
    requires !HasMatch(q + s, k)
    ensures !HasMatch(q + Mask(s, k), k)
    decreases |s|
  {
    if s == [] {
      assert q + s == q + Mask(s, k);
    } else if HasMatch(s, k) {
      NoTokenAcrossReplacement(q, s, k);
    } else {
      assert q + Mask(s, k) == (q + [s[0]]) + Mask(s[1..], k);
      assert (q + [s[0]]) + s[1..] == q + s;
      NoNewTokenAtFront(q + [s[0]], s[1..], k);
    }
  }

  /** A token in front of a replaced match would already have matched
      across the original match. */
  lemma NoTokenAcrossReplacement(q: string, s: string, k: Style)
    requires !HasMatch(q + s, k) && HasMatch(s, k)
    ensures !HasMatch(q + Mask(s, k), k)
  {
    var m := Mask(s, k);
    var n := |q| + 3;
    ReplacedFront(s, k);
    if HasMatch(q + m, k) {
      assert (q + m)[n] == m[3];
      Blocked(q + m, n, k);
      SamePrefix(q, m, s);
      Extended(q + s, n, k);
    }
  }

  /** Masking a string that starts with a match keeps its `bot` and puts
      the replacement's fourth character after it. */
  lemma ReplacedFront(s: string, k: Style)
    requires HasMatch(s, k)
    ensures |Mask(s, k)| >= 4 && Mask(s, k)[..3] == s[..3] && Mask(s, k)[3] == Replacement(k)[3]
  {
    var p := Replacement(k);
    var m := Mask(s, k);
    assert m == p + Mask(s[MatchLen(s, k)..], k);
    assert m[..3] == p[..3];
  }

  lemma SamePrefix(q: string, m: string, s: string)
    requires |m| >= 3 && |s| >= 3 && m[..3] == s[..3]
    ensures (q + m)[..|q| + 3] == (q + s)[..|q| + 3]
  {
    assert forall i :: 0 <= i < |q| + 3 ==> (q + m)[i] == (q + s)[i];
  }

  /** The replacement, followed by anything without a token, has no token. */
  lemma ReplacementNeverMatches(rest: string, k: Style)
    requires TokenFree(rest, k)
    ensures TokenFree(Replacement(k) + rest, k)
  {
    var p := Replacement(k);
    var r := p + rest;
    forall i | 0 <= i < |r|
      ensures !HasMatch(r[i..], k)
    {
      if i >= |p| {
        assert r[i..] == rest[i - |p|..];
      } else if i == 0 {
        assert r[3..][0] == p[3];
        assert DigitRun(r[3..]) == 0;
      } else {
        assert r[i..][0] == p[i] != 'b';
      }
    }
  }
}
