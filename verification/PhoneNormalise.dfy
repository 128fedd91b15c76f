/** Kenyan MSISDN normalisation (src/domain/phoneNormalise.ts). */
module PhoneNormalise {
  import opened Domain

  /** The characters matched by `\s` in a JavaScript regular expression, which are also those `trim` removes. */
  predicate IsWhitespace(c: char) {
    || '\t' <= c <= '\r'
    || c in {' ', '\U{00A0}', '\U{1680}', '\U{2028}', '\U{2029}', '\U{202F}', '\U{205F}', '\U{3000}', '\U{FEFF}'}
    || '\U{2000}' <= c <= '\U{200A}'
  }

  predicate IsSeparator(c: char) {
    IsWhitespace(c) || c in {'-', '(', ')'}
  }

  predicate IsDigit(c: char) {
    '0' <= c <= '9'
  }

  function TrimStart(s: string): string {
    if s != [] && IsWhitespace(s[0]) then TrimStart(s[1..]) else s
  }

  function TrimEnd(s: string): string {
    if s != [] && IsWhitespace(s[|s| - 1]) then TrimEnd(s[..|s| - 1]) else s
  }

  function Trim(s: string): string {
    TrimEnd(TrimStart(s))
  }

  /** `replace(/[\s\-()]/g, '')`. */
  function Strip(s: string): string {
    if s == [] then [] else (if IsSeparator(s[0]) then [] else [s[0]]) + Strip(s[1..])
  }

  /** `/^\+254[17][0-9]{8}$/`. */
  predicate Canonical(s: string) {
    && |s| == 13
    && s[..4] == "+254"
    && s[4] in {'1', '7'}
    && forall i :: 5 <= i < 13 ==> IsDigit(s[i])
  }

  /**
   * The rewriting after separators are gone: `00` to `+`, then a leading `0` to `+254`, or a bare
   * `254d` to `+254d`.
   */
  function Rewrite(v: string): string {
    var w := if "00" <= v then "+" + v[2..] else v;
    if "0" <= w then "+254" + w[1..]
    else if "254" <= w && |w| > 3 && IsDigit(w[3]) then "+" + w
    else w
  }

  function Normalise(input: string): Option<string> {
    var v := Rewrite(Strip(Trim(input)));
    if Canonical(v) then Some(v) else None
  }

  /** The four ways to write the canonical number `n` without separators. */
  function Spellings(n: string): set<string>
    requires Canonical(n)
  {
    {n, n[1..], "0" + n[4..], "00" + n[1..]}
  }

  lemma {:induction false} StripConcat(a: string, b: string)
    ensures Strip(a + b) == Strip(a) + Strip(b)
  {
    if a == [] {
      assert a + b == b;
    } else {
      assert (a + b)[1..] == a[1..] + b;
      StripConcat(a[1..], b);
    }
  }

  lemma {:induction false} StripTrimStart(s: string)
    ensures Strip(TrimStart(s)) == Strip(s)
  {
    if s != [] && IsWhitespace(s[0]) {
      StripTrimStart(s[1..]);
    }
  }

  lemma {:induction false} StripTrimEnd(s: string)
    ensures Strip(TrimEnd(s)) == Strip(s)
  {
    if s != [] && IsWhitespace(s[|s| - 1]) {
      StripTrimEnd(s[..|s| - 1]);
      StripConcat(s[..|s| - 1], [s[|s| - 1]]);
      assert s == s[..|s| - 1] + [s[|s| - 1]];
    }
  }

  /** Trimming first makes no difference: only the stripped text matters. */
  lemma OnlyStrippedTextMatters(s: string, t: string)
    requires Strip(s) == Strip(t)
    ensures Normalise(s) == Normalise(t)
  {
    StripTrimStart(s); StripTrimEnd(TrimStart(s));
    StripTrimStart(t); StripTrimEnd(TrimStart(t));
  }

  /** A space, dash or parenthesis put anywhere in the input changes nothing. */
  lemma SeparatorsAreIgnored(a: string, c: char, b: string)
    requires IsSeparator(c)
    ensures Normalise(a + [c] + b) == Normalise(a + b)
  {
    StripConcat(a + [c], b); StripConcat(a, [c]); StripConcat(a, b);
    assert Strip([c]) == [];
    OnlyStrippedTextMatters(a + [c] + b, a + b);
  }

  lemma {:induction false} StripKeepsCleanText(s: string)
    requires forall c :: c in s ==> !IsSeparator(c)
    ensures Strip(s) == s
  {
    if s != [] {
      assert forall c :: c in s[1..] ==> c in s;
      StripKeepsCleanText(s[1..]);
    }
  }

  lemma CanonicalIsClean(n: string)
    requires Canonical(n)
    ensures Strip(n) == n
  {
    forall c | c in n ensures !IsSeparator(c) {
      var i :| 0 <= i < |n| && n[i] == c;
      if i < 4 { assert n[i] == n[..4][i]; }
    }
    StripKeepsCleanText(n);
  }

  /** A number comes out of the rewriting exactly when one of its four spellings went in. */
  lemma RewritePreimage(v: string, n: string)
    requires Canonical(n)
    ensures Rewrite(v) == n <==> v in Spellings(n)
  {
    assert n == "+254" + n[4..];
    assert n[1..] == "254" + n[4..];
    assert n[0] == '+' && n[4..][0] != '0';
    if Rewrite(v) == n {
      if "00" <= v {
        assert v == "00" + v[2..];
        assert n[1..] == v[2..];
      } else if "0" <= v {
        assert n[4..] == v[1..];
        assert v == "0" + v[1..];
      } else if v != n {
        assert n[1..] == v;
      }
    }
    if v in Spellings(n) {
      SpellingRewrites(v, n);
    }
  }

  lemma SpellingRewrites(v: string, n: string)
    requires Canonical(n) && v in Spellings(n)
    ensures Rewrite(v) == n
  {
    assert n == "+254" + n[4..];
    assert n[1..] == "254" + n[4..];
    if v == n {
      assert v[0] == '+';
    } else if v == n[1..] {
      assert v[0] == '2' && v[3] == n[4];
    } else if v == "0" + n[4..] {
      assert v[1] == n[4];
      assert v[1..] == n[4..];
    } else {
      assert v[2..] == n[1..];
      assert "+" + v[2..] == n;
    }
  }

  /**
   * Exact preimage: `s` normalises to `n` if and only if `n` is canonical and `s`, stripped, is one
   * of its spellings.
   */
  lemma Preimage(s: string, n: string)
    ensures Normalise(s) == Some(n) <==> Canonical(n) && Strip(s) in Spellings(n)
  {
    StripTrimStart(s); StripTrimEnd(TrimStart(s));
    if Canonical(n) {
      RewritePreimage(Strip(s), n);
    }
  }

  lemma {:induction false} StripNeverGrows(s: string)
    ensures |Strip(s)| <= |s|
    ensures |Strip(s)| == |s| ==> Strip(s) == s
  {
    if s != [] {
      StripNeverGrows(s[1..]);
    }
  }

  lemma CleanSuffix(n: string, k: nat)
    requires Strip(n) == n && k <= |n|
    ensures Strip(n[k..]) == n[k..]
  {
    assert n == n[..k] + n[k..];
    StripConcat(n[..k], n[k..]);
    StripNeverGrows(n[..k]);
    StripNeverGrows(n[k..]);
  }

  /** The spellings are built from the characters of the canonical number and zeros: none holds a separator. */
  lemma SpellingIsClean(n: string, s: string)
    requires Canonical(n) && s in Spellings(n)
    ensures Strip(s) == s
  {
    CanonicalIsClean(n);
    if s == n[1..] {
      CleanSuffix(n, 1);
    } else if s == "0" + n[4..] {
      CleanSuffix(n, 4);
      StripConcat("0", n[4..]);
      StripKeepsCleanText("0");
    } else if s == "00" + n[1..] {
      CleanSuffix(n, 1);
      StripConcat("00", n[1..]);
      StripKeepsCleanText("00");
    }
  }

  lemma {:induction false} CardinalityOfDistinctLengths(a: string, b: string, c: string, d: string)
    requires |a| == 13 && |b| == 12 && |c| == 10 && |d| == 14
    ensures |{a, b, c, d}| == 4
  {
    assert {a, b, c, d} == {a} + {b} + {c} + {d};
    assert d !in {a} + {b} + {c};
    assert c !in {a} + {b};
    assert b !in {a};
  }

  /** The four spellings are really four, and each one normalises back. */
  lemma FourSpellings(n: string)
    requires Canonical(n)
    ensures |Spellings(n)| == 4
    ensures forall s :: s in Spellings(n) ==> Normalise(s) == Some(n)
  {
    CardinalityOfDistinctLengths(n, n[1..], "0" + n[4..], "00" + n[1..]);
    forall s | s in Spellings(n) ensures Normalise(s) == Some(n) {
      SpellingIsClean(n, s);
      Preimage(s, n);
    }
  }

  /** Normalising is idempotent, and what it returns is canonical. */
  lemma Idempotent(s: string)
    requires Normalise(s).Some?
    ensures Canonical(Normalise(s).value)
    ensures Normalise(Normalise(s).value) == Normalise(s)
  {
    var n := Normalise(s).value;
    CanonicalIsClean(n);
    Preimage(n, n);
  }
}
