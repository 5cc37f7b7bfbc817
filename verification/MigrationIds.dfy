/** Migration ids: six digits, an underscore and a lowercase slug. */
module MigrationIds {
  import opened Outcomes

  const MAX_ID: nat := 128
  const MAX_PREFIX: nat := 999_999

  predicate IsDigit(c: char) { '0' <= c <= '9' }

  predicate IsLower(c: char) { 'a' <= c <= 'z' }

  /** Underscore-separated non-empty segments of lowercase letters and digits, starting with a letter. */
  predicate IsSlug(s: string)
  {
    && s != []
    && IsLower(s[0])
    && s[|s| - 1] != '_'
    && (forall i :: 0 <= i < |s| ==> IsLower(s[i]) || IsDigit(s[i]) || s[i] == '_')
    && (forall i :: 0 < i < |s| ==> !(s[i - 1] == '_' && s[i] == '_'))
  }

  function DigitsValue(s: string): nat
    requires forall i :: 0 <= i < |s| ==> IsDigit(s[i])
  {
    if s == [] then 0
    else
      assert IsDigit(s[|s| - 1]);
      10 * DigitsValue(s[..|s| - 1]) + (s[|s| - 1] as int - '0' as int)
  }

  /** The numeric prefix of a well-formed id. */
  function ParseId(id: string): Option<nat>
  {
    if |id| < 8 || |id| > MAX_ID then None
    else if !(forall i :: 0 <= i < 6 ==> IsDigit(id[i])) || id[6] != '_' || !IsSlug(id[7..]) then None
    else Some(DigitsValue(id[..6]))
  }

  /** The last `width` decimal digits of `n`, zero-padded. */
  function Digits(n: nat, width: nat): (s: string)
    ensures |s| == width
    ensures forall i :: 0 <= i < |s| ==> IsDigit(s[i])
    decreases width, n
  {
    if width == 0 then []
    else Digits(n / 10, width - 1) + [('0' as int + n % 10) as char]
  }

  function FormatId(n: nat, slug: string): string
  {
    Digits(n, 6) + "_" + slug
  }

  function Pow10(k: nat): nat
  {
    if k == 0 then 1 else 10 * Pow10(k - 1)
  }

  lemma {:induction false} DigitsRoundTrip(n: nat, width: nat)
    requires n < Pow10(width)
    ensures DigitsValue(Digits(n, width)) == n
    decreases width
  {
    if width > 0 {
      DigitsRoundTrip(n / 10, width - 1);
      var s := Digits(n, width);
      assert s[..|s| - 1] == Digits(n / 10, width - 1);
    }
  }

  /** A formatted id parses back to its number. */
  lemma FormatParses(n: nat, slug: string)
    requires n <= MAX_PREFIX && IsSlug(slug) && |slug| + 7 <= MAX_ID
    ensures ParseId(FormatId(n, slug)) == Some(n)
  {
    var id := FormatId(n, slug);
    assert id[..6] == Digits(n, 6);
    assert id[7..] == slug;
    assert forall i :: 0 <= i < 6 ==> id[i] == id[..6][i];
    assert Pow10(6) == 1_000_000;
    DigitsRoundTrip(n, 6);
  }
}
