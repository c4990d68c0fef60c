/**
 `fmt.Errorf(s)` with no arguments, as `asErr` calls it on a string
 (just.go:71): the string is read as a format, so its `%` directives are
 interpreted even though there is nothing to substitute.

 A directive is `%`, then flags among `#0+- `, then an optional decimal
 width, then an optional `.` and decimal precision, then one verb character.
 A `.` is read as the start of a precision only when another character
 follows it; a `.` that ends the string is the verb. A width or precision
 whose value has passed one million while more digits follow makes `fmt`
 give up on the rest of the string, as if it ended there.
 With no arguments, `%%` writes one `%`, any other verb writes
 `%!<verb>(MISSING)`, and a directive cut off by the end of the string writes
 `%!(NOVERB)`.
 */
module Format {

  predicate IsFlag(c: char)
  {
    c == '#' || c == '0' || c == '+' || c == '-' || c == ' '
  }

  predicate IsDigit(c: char)
  {
    '0' <= c <= '9'
  }

  /** The first index at or after `i` whose character fails `p`. */
  function SkipWhile(s: string, i: nat, p: char -> bool): (j: nat)
    requires i <= |s|
    ensures i <= j <= |s|
    ensures forall k :: i <= k < j ==> p(s[k])
    ensures j < |s| ==> !p(s[j])
    decreases |s| - i
  {
    if i < |s| && p(s[i]) then SkipWhile(s, i + 1, p) else i
  }

  /** The largest width or precision `fmt` keeps reading digits of. */
  const MaxNum: nat := 1000000

  /** The end of the decimal number starting at `i`, whose digits so far
      have the value `num`; `|s|` when the number grows too large and `fmt`
      gives up. */
  function NumberEnd(s: string, i: nat, num: nat): (j: nat)
    requires i <= |s|
    ensures i <= j <= |s|
    ensures j < |s| ==> forall k :: i <= k < j ==> IsDigit(s[k])
    ensures j < |s| ==> !IsDigit(s[j])
    decreases |s| - i
  {
    if i < |s| && IsDigit(s[i]) then
      if num > MaxNum then |s|
      else NumberEnd(s, i + 1, num * 10 + (s[i] as int - '0' as int))
    else i
  }

  /** Where the verb of a directive sits, when its flags, width and
      precision start at `i`; `|s|` when the string ends first. */
  function VerbIndex(s: string, i: nat): (j: nat)
    requires i <= |s|
    ensures i <= j <= |s|
  {
    var w := NumberEnd(s, SkipWhile(s, i, IsFlag), 0);
    if w + 1 < |s| && s[w] == '.' then NumberEnd(s, w + 1, 0) else w
  }

  const NoVerb: string := "%!(NOVERB)"

  function Missing(verb: char): string
  {
    "%!" + [verb] + "(MISSING)"
  }

  function FormatFrom(s: string, i: nat): string
    requires i <= |s|
    decreases |s| - i
  {
    if i == |s| then ""
    else if s[i] != '%' then [s[i]] + FormatFrom(s, i + 1)
    else
      var v := VerbIndex(s, i + 1);
      if v == |s| then NoVerb
      else if s[v] == '%' then "%" + FormatFrom(s, v + 1)
      else Missing(s[v]) + FormatFrom(s, v + 1)
  }

  /** The text of `fmt.Errorf(s)`. */
  function FormatNoArgs(s: string): string
  {
    FormatFrom(s, 0)
  }

  lemma {:induction false} PlainSuffixUnchanged(s: string, i: nat)
    requires i <= |s|
    requires forall k :: i <= k < |s| ==> s[k] != '%'
    ensures FormatFrom(s, i) == s[i..]
    decreases |s| - i
  {
    if i < |s| {
      PlainSuffixUnchanged(s, i + 1);
      assert s[i..] == [s[i]] + s[i + 1..];
    }
  }

  /** A string without `%` is its own error text. */
  lemma PlainTextUnchanged(s: string)
    requires '%' !in s
    ensures FormatNoArgs(s) == s
  {
    PlainSuffixUnchanged(s, 0);
  }

  /** `%%` writes one `%`. */
  lemma EscapedPercent()
    ensures FormatNoArgs("%%") == "%"
  {
    assert VerbIndex("%%", 1) == 1;
  }

  /** A verb with nothing to substitute is named in the text. */
  lemma MissingOperand()
    ensures FormatNoArgs("%d") == "%!d(MISSING)"
  {
    assert VerbIndex("%d", 1) == 1;
  }

  /** A `.` at the very end is the verb, not a precision. */
  lemma TrailingDotIsVerb()
    ensures FormatNoArgs("%.") == Missing('.')
  {
    assert VerbIndex("%.", 1) == 1;
  }

  /** A precision that has reached ten million before another digit
      follows is too large: `fmt` gives up and writes no verb. */
  lemma OverlongPrecisionHasNoVerb()
    ensures FormatNoArgs("%.100000000d") == NoVerb
  {
    var s := "%.100000000d";
    assert |s| == 12 && s[2] == '1' && s[3] == '0' && s[4] == '0' && s[5] == '0' && s[6] == '0';
    assert s[7] == '0' && s[8] == '0' && s[9] == '0' && s[10] == '0';
    assert NumberEnd(s, 10, 10000000) == |s|;
    assert NumberEnd(s, 9, 1000000) == |s|;
    assert NumberEnd(s, 8, 100000) == |s|;
    assert NumberEnd(s, 7, 10000) == |s|;
    assert NumberEnd(s, 6, 1000) == |s|;
    assert NumberEnd(s, 5, 100) == |s|;
    assert NumberEnd(s, 4, 10) == |s|;
    assert NumberEnd(s, 3, 1) == |s|;
    assert NumberEnd(s, 2, 0) == |s|;
    assert VerbIndex(s, 1) == |s|;
  }

  lemma TenMillionVerbIndex()
    ensures VerbIndex("%.10000000d", 1) == 10
  {
    var s := "%.10000000d";
    assert |s| == 11 && s[2] == '1' && s[3] == '0' && s[4] == '0' && s[5] == '0' && s[6] == '0';
    assert s[7] == '0' && s[8] == '0' && s[9] == '0' && s[10] == 'd';
    assert NumberEnd(s, 10, 10000000) == 10;
    assert NumberEnd(s, 9, 1000000) == 10;
    assert NumberEnd(s, 8, 100000) == 10;
    assert NumberEnd(s, 7, 10000) == 10;
    assert NumberEnd(s, 6, 1000) == 10;
    assert NumberEnd(s, 5, 100) == 10;
    assert NumberEnd(s, 4, 10) == 10;
    assert NumberEnd(s, 3, 1) == 10;
    assert NumberEnd(s, 2, 0) == 10;
  }

  /** Exactly ten million is still read: the check comes before each digit
      and one million is not yet too large. */
  lemma TenMillionPrecisionIsRead()
    ensures FormatNoArgs("%.10000000d") == Missing('d')
  {
    var s := "%.10000000d";
    TenMillionVerbIndex();
    assert s[0] == '%' && s[10] == 'd' && |s| == 11;
    assert FormatFrom(s, 11) == "";
    assert FormatFrom(s, 0) == Missing('d') + FormatFrom(s, 11);
  }

  /** A trailing `%` has no verb. */
  lemma TrailingPercent()
    ensures FormatNoArgs("%") == NoVerb
  {
    assert VerbIndex("%", 1) == 1;
  }
}
