/** String helpers the source gets from its runtime: ASCII case mapping,
    `startsWith`/`includes`, decimal rendering of numbers inside SQL text,
    array joining, and the camelCase to snake_case key rewrite. */
module Text {

  predicate IsUpper(c: char) { 'A' <= c <= 'Z' }

  /** ASCII lower-casing of one character (Unicode folding is not modelled). */
  function LowerChar(c: char): char {
    if IsUpper(c) then (c as int + 32) as char else c
  }

  /** `s.toLowerCase()` / `s.lower()` restricted to ASCII. */
  function Lower(s: string): (r: string)
    ensures |r| == |s|
    ensures forall i :: 0 <= i < |s| ==> r[i] == LowerChar(s[i])
    ensures forall i :: 0 <= i < |r| ==> !IsUpper(r[i])
  {
    seq(|s|, i requires 0 <= i < |s| => LowerChar(s[i]))
  }

  /** `s.startsWith(p)`: exact, case-sensitive prefix test. */
  predicate StartsWith(s: string, p: string) {
    |p| <= |s| && s[..|p|] == p
  }

  /** `s.includes(k)` / Python's `k in s`, by scanning every start position. */
  predicate Contains(s: string, k: string)
    decreases |s|
  {
    StartsWith(s, k) || (|s| > 0 && Contains(s[1..], k))
  }

  /** An occurrence of `k` starts at position `i` of `s`. */
  predicate OccursAt(s: string, k: string, i: int) {
    0 <= i && i + |k| <= |s| && s[i..i + |k|] == k
  }

  /** `Contains` finds exactly the occurrences that exist. */
  lemma {:induction false} ContainsIffOccurs(s: string, k: string)
    ensures Contains(s, k) <==> exists i :: OccursAt(s, k, i)
    decreases |s|
  {
    if Contains(s, k) {
      if StartsWith(s, k) {
        assert OccursAt(s, k, 0);
      } else {
        ContainsIffOccurs(s[1..], k);
        var j :| OccursAt(s[1..], k, j);
        assert 0 <= j && j + 1 + |k| <= |s|;
        calc {
          s[j + 1..j + 1 + |k|];
          s[1..][j..j + |k|];
          k;
        }
        assert OccursAt(s, k, j + 1);
      }
    } else {
      forall i | 0 <= i
        ensures !OccursAt(s, k, i)
      {
        if i == 0 {
          assert !StartsWith(s, k);
        } else if OccursAt(s, k, i) {
          assert |s| > 0;
          ContainsIffOccurs(s[1..], k);
          assert s[1..][i - 1..i - 1 + |k|] == s[i..i + |k|];
          assert OccursAt(s[1..], k, i - 1);
        }
      }
    }
  }

  /** A text shorter than the keyword cannot contain it. */
  lemma ShortTextMissesKeyword(s: string, k: string)
    requires |s| < |k|
    ensures !Contains(s, k)
  {
    ContainsIffOccurs(s, k);
  }

  /** `keywords.some(k => s.includes(k))` / Python's `any(k in s for k in keywords)`. */
  predicate ContainsAny(s: string, keywords: seq<string>) {
    exists i :: 0 <= i < |keywords| && Contains(s, keywords[i])
  }

  /** Some keyword of the list occurs at some position of `s`: the reference
      meaning of `ContainsAny`, stated by positions rather than by scanning. */
  ghost predicate OccursAny(s: string, keywords: seq<string>) {
    exists i, p :: 0 <= i < |keywords| && OccursAt(s, keywords[i], p)
  }

  lemma ContainsAnyIffOccursAny(s: string, keywords: seq<string>)
    ensures ContainsAny(s, keywords) <==> OccursAny(s, keywords)
  {
    forall i | 0 <= i < |keywords|
      ensures Contains(s, keywords[i]) <==> exists p :: OccursAt(s, keywords[i], p)
    {
      ContainsIffOccurs(s, keywords[i]);
    }
  }

  /** No keyword of the list is longer than `n` characters. */
  predicate AllLongerThan(keywords: seq<string>, n: nat) {
    forall i :: 0 <= i < |keywords| ==> |keywords[i]| > n
  }

  lemma ShortTextMissesAll(s: string, keywords: seq<string>)
    requires AllLongerThan(keywords, |s|)
    ensures !ContainsAny(s, keywords)
  {
    forall i | 0 <= i < |keywords|
      ensures !Contains(s, keywords[i])
    {
      ShortTextMissesKeyword(s, keywords[i]);
    }
  }

  // ---------------------------------------------------------------------------
  // Decimal numbers, as template literals render them into SQL text.

  function DigitChar(d: nat): char
    requires d < 10
  {
    ('0' as int + d) as char
  }

  predicate IsDigit(c: char) { '0' <= c <= '9' }

  function DigitValue(c: char): nat
    requires IsDigit(c)
  {
    c as int - '0' as int
  }

  /** `${n}` for a natural number: its decimal digits, most significant first. */
  function NatToString(n: nat): (r: string)
    ensures |r| > 0
    ensures forall i :: 0 <= i < |r| ==> IsDigit(r[i])
  {
    if n < 10 then [DigitChar(n)] else NatToString(n / 10) + [DigitChar(n % 10)]
  }

  /** Reads a string of decimal digits back as a number. */
  function ParseNat(s: string): nat
    requires forall i :: 0 <= i < |s| ==> IsDigit(s[i])
  {
    if s == [] then 0 else ParseNat(s[..|s| - 1]) * 10 + DigitValue(s[|s| - 1])
  }

  /** Decimal rendering is reversible, so distinct placeholder numbers render differently. */
  lemma {:induction false} ParseNatToString(n: nat)
    ensures ParseNat(NatToString(n)) == n
  {
    if n >= 10 {
      var s := NatToString(n / 10);
      var r := NatToString(n);
      assert r == s + [DigitChar(n % 10)];
      assert r[..|r| - 1] == s;
      ParseNatToString(n / 10);
    }
  }

  lemma NatToStringInjective(a: nat, b: nat)
    requires NatToString(a) == NatToString(b)
    ensures a == b
  {
    ParseNatToString(a);
    ParseNatToString(b);
  }

  /** `parts.join(sep)`. */
  function Join(sep: string, parts: seq<string>): string {
    if parts == [] then ""
    else if |parts| == 1 then parts[0]
    else parts[0] + sep + Join(sep, parts[1..])
  }

  // ---------------------------------------------------------------------------
  // key.replace(/([A-Z])/g, '_$1').toLowerCase()

  /** The regular-expression step: an underscore before every capital letter. */
  function MarkCapitals(key: string): (r: string)
  {
    if key == [] then []
    else (if IsUpper(key[0]) then ['_', key[0]] else [key[0]]) + MarkCapitals(key[1..])
  }

  /** The whole rewrite: mark capitals, then lower-case. */
  function SnakeCase(key: string): string {
    Lower(MarkCapitals(key))
  }

  /** The inverse rewrite: drop each underscore and capitalise the letter after it. */
  function CamelCase(col: string): string
    decreases |col|
  {
    if col == [] then []
    else if col[0] == '_' && |col| >= 2 then [UpperChar(col[1])] + CamelCase(col[2..])
    else [col[0]] + CamelCase(col[1..])
  }

  function UpperChar(c: char): char {
    if 'a' <= c <= 'z' then (c as int - 32) as char else c
  }

  predicate NoUnderscore(s: string) {
    forall i :: 0 <= i < |s| ==> s[i] != '_'
  }

  lemma LowerSplits(a: string, b: string)
    ensures Lower(a + b) == Lower(a) + Lower(b)
  {
    var l := Lower(a + b);
    assert forall i :: 0 <= i < |a| ==> (a + b)[i] == a[i];
    assert forall i :: |a| <= i < |a| + |b| ==> (a + b)[i] == b[i - |a|];
    assert l == Lower(a) + Lower(b);
  }

  /** The key rewrite loses nothing for keys without underscores: mapping
      the column name back gives the key. */
  lemma {:induction false} SnakeCaseRoundTrip(rest: string)
    requires NoUnderscore(rest)
    ensures CamelCase(SnakeCase(rest)) == rest
    decreases |rest|
  {
    if rest != [] {
      var c := rest[0];
      var hd := if IsUpper(c) then ['_', c] else [c];
      assert MarkCapitals(rest) == hd + MarkCapitals(rest[1..]);
      LowerSplits(hd, MarkCapitals(rest[1..]));
      SnakeCaseRoundTrip(rest[1..]);
      var tl := SnakeCase(rest[1..]);
      if IsUpper(c) {
        assert SnakeCase(rest) == ['_', LowerChar(c)] + tl;
        assert UpperChar(LowerChar(c)) == c;
        assert (['_', LowerChar(c)] + tl)[2..] == tl;
      } else {
        assert SnakeCase(rest) == [c] + tl;
        assert ([c] + tl)[1..] == tl;
      }
      assert rest == [c] + rest[1..];
    }
  }
}
