/**
 * Shared vocabulary for the UI model: an Option type for JavaScript's
 * `undefined`/`null`, JavaScript truthiness of the values the components
 * test, and the few string operations the components rely on
 * (`split(c)[i]`, `split(c).join(d)`, `replace(pattern, replacement)` and
 * template-literal rendering of integers).
 */
module Common {

  datatype Option<T> = None | Some(value: T)

  /** JavaScript truthiness of a `number | null | undefined`: 0 is falsy. */
  predicate TruthyNumber(n: Option<int>)
  {
    n.Some? && n.value != 0
  }

  /** JavaScript truthiness of a `string | null | undefined`: "" is falsy. */
  predicate TruthyString(s: Option<string>)
  {
    s.Some? && s.value != ""
  }

  // ---------------------------------------------------------------------------
  // Confirmation dialogs

  /** How the user closes a `Modal.confirm` dialog. */
  datatype ConfirmAnswer = Ok | Cancel

  /** A dialog whose `onOk` callback makes the request `x`: the request is made on OK and only then. */
  function ConfirmedRequest<T>(answer: ConfirmAnswer, x: T): (r: Option<T>)
    ensures r.Some? <==> answer == Ok
    ensures r.Some? ==> r.value == x
  {
    if answer == Ok then Some(x) else None
  }

  // ---------------------------------------------------------------------------
  // split / join on a one-character separator

  /** Index of the first occurrence of `c` in `s`. */
  function IndexOf(s: string, c: char): (i: nat)
    requires c in s
    ensures i < |s| && s[i] == c && c !in s[..i]
  {
    if s[0] == c then 0 else 1 + IndexOf(s[1..], c)
  }

  /** A position holding `c` with no `c` before it is the first index of `c`. */
  lemma {:induction false} IndexOfFirst(s: string, c: char, k: nat)
    requires k < |s| && s[k] == c && c !in s[..k]
    ensures IndexOf(s, c) == k
  {
    if k > 0 {
      assert s[0] in s[..k];
      assert s[1..][k - 1] == c;
      assert s[1..][..k - 1] == s[..k][1..];
      IndexOfFirst(s[1..], c, k - 1);
    }
  }

  /** `s.split(c)` for a one-character separator: never empty, no part holds `c`. */
  function Split(s: string, c: char): (parts: seq<string>)
    ensures |parts| >= 1
    ensures forall i :: 0 <= i < |parts| ==> c !in parts[i]
    decreases |s|
  {
    if c !in s then [s]
    else
      var i := IndexOf(s, c);
      [s[..i]] + Split(s[i + 1..], c)
  }

  /** `parts.join(d)` for a one-character separator. */
  function Join(parts: seq<string>, d: char): string
  {
    if |parts| == 0 then ""
    else if |parts| == 1 then parts[0]
    else parts[0] + [d] + Join(parts[1..], d)
  }

  /** `s.split(c)[i]`: the i-th segment, or `undefined` when there are fewer segments. */
  function Segment(s: string, c: char, i: nat): (r: Option<string>)
    ensures r.Some? ==> c !in r.value
  {
    var parts := Split(s, c);
    if i < |parts| then Some(parts[i]) else None
  }

  /** Joining the parts of a split with the same separator gives the string back. */
  lemma {:induction false} JoinSplit(s: string, c: char)
    ensures Join(Split(s, c), c) == s
    decreases |s|
  {
    if c in s {
      var i := IndexOf(s, c);
      var rest := s[i + 1..];
      JoinSplit(rest, c);
      assert Split(s, c) == [s[..i]] + Split(rest, c);
      assert s == s[..i] + [c] + rest;
    }
  }

  /** Splitting a join of separator-free parts gives the parts back. */
  lemma {:induction false} SplitJoin(parts: seq<string>, c: char)
    requires |parts| >= 1
    requires forall i :: 0 <= i < |parts| ==> c !in parts[i]
    ensures Split(Join(parts, c), c) == parts
    decreases |parts|
  {
    if |parts| > 1 {
      var tail := Join(parts[1..], c);
      var s := parts[0] + [c] + tail;
      assert Join(parts, c) == s;
      assert c in s by { assert s[|parts[0]|] == c; }
      assert s[..|parts[0]|] == parts[0];
      assert s[|parts[0]|] == c;
      IndexOfFirst(s, c, |parts[0]|);
      var i := |parts[0]|;
      assert s[..i] == parts[0];
      assert s[i + 1..] == tail;
      SplitJoin(parts[1..], c);
      assert parts == [parts[0]] + parts[1..];
    }
  }

  /** The text between the first and second `c` of `head + [c] + tail`, when `tail` has no `c`. */
  lemma SegmentAfterPrefix(head: string, c: char, tail: string)
    requires c !in head && c !in tail
    ensures Segment(head + [c] + tail, c, 1) == Some(tail)
  {
    SplitJoin([head, tail], c);
    assert Join([head, tail], c) == head + [c] + tail;
  }

  // ---------------------------------------------------------------------------
  // split(c).join(d) replaces every c by d

  /** Every `c` in `s` replaced by `d`, character by character. */
  function SubstituteChar(s: string, c: char, d: char): (r: string)
    ensures |r| == |s|
    ensures forall i :: 0 <= i < |s| ==> r[i] == (if s[i] == c then d else s[i])
  {
    seq(|s|, i requires 0 <= i < |s| => if s[i] == c then d else s[i])
  }

  /** `s.split(c).join(d)` is the character-wise substitution of `d` for `c`. */
  lemma {:induction false} SplitJoinSubstitutes(s: string, c: char, d: char)
    ensures Join(Split(s, c), d) == SubstituteChar(s, c, d)
    decreases |s|
  {
    if c in s {
      var i := IndexOf(s, c);
      var rest := s[i + 1..];
      SplitJoinSubstitutes(rest, c, d);
      assert Split(s, c) == [s[..i]] + Split(rest, c);
      var r := SubstituteChar(s, c, d);
      assert r == s[..i] + [d] + SubstituteChar(rest, c, d);
    } else {
      assert SubstituteChar(s, c, d) == s;
    }
  }

  // ---------------------------------------------------------------------------
  // String.prototype.replace(pattern, replacement) with a string pattern

  /** `pat` occurs in `s` at position `i`. */
  predicate OccursAt(s: string, pat: string, i: nat)
  {
    i <= |s| && pat <= s[i..]
  }

  /** A pattern does not occur where one of its characters disagrees with the text. */
  lemma MismatchNotOccurs(s: string, pat: string, i: nat, k: nat)
    requires i <= |s| && k < |pat|
    requires i + k >= |s| || s[i + k] != pat[k]
    ensures !OccursAt(s, pat, i)
  {
  }

  /**
   * `s.replace(pat, rep)`: the first occurrence of `pat` is replaced by `rep`
   * (an empty pattern matches at the start). The replacement is taken
   * literally, so `rep` must not use JavaScript's `$` substitution syntax;
   * every replacement in the modelled components is plain text.
   */
  function ReplaceFirst(s: string, pat: string, rep: string): string
    decreases |s|
  {
    if pat <= s then rep + s[|pat|..]
    else if |s| == 0 then s
    else [s[0]] + ReplaceFirst(s[1..], pat, rep)
  }

  /** Without an occurrence of the pattern, `replace` changes nothing. */
  lemma {:induction false} ReplaceFirstAbsent(s: string, pat: string, rep: string)
    requires forall i :: 0 <= i <= |s| ==> !OccursAt(s, pat, i)
    ensures ReplaceFirst(s, pat, rep) == s
    decreases |s|
  {
    assert !OccursAt(s, pat, 0);
    assert s[0..] == s;
    if |s| > 0 {
      forall i | 0 <= i <= |s| - 1 ensures !OccursAt(s[1..], pat, i) {
        assert !OccursAt(s, pat, i + 1);
        assert s[1..][i..] == s[i + 1..];
      }
      ReplaceFirstAbsent(s[1..], pat, rep);
    }
  }

  /** With a first occurrence at `i`, `replace` splices `rep` in exactly there. */
  lemma {:induction false} ReplaceFirstAt(s: string, pat: string, rep: string, i: nat)
    requires OccursAt(s, pat, i)
    requires forall j :: 0 <= j < i ==> !OccursAt(s, pat, j)
    ensures i + |pat| <= |s|
    ensures ReplaceFirst(s, pat, rep) == s[..i] + rep + s[i + |pat|..]
    decreases i
  {
    assert s[0..] == s;
    if i > 0 {
      assert !OccursAt(s, pat, 0);
      var t := s[1..];
      assert ReplaceFirst(s, pat, rep) == [s[0]] + ReplaceFirst(t, pat, rep);
      assert t[i - 1..] == s[i..];
      forall j | 0 <= j < i - 1 ensures !OccursAt(t, pat, j) {
        assert !OccursAt(s, pat, j + 1);
        assert t[j..] == s[j + 1..];
      }
      ReplaceFirstAt(t, pat, rep, i - 1);
      assert s[..i] == [s[0]] + t[..i - 1];
      assert s[i + |pat|..] == t[i - 1 + |pat|..];
    }
  }

  /** `replace` introduces no character that neither `s` nor `rep` holds. */
  lemma {:induction false} ReplaceFirstKeepsOut(s: string, pat: string, rep: string, ch: char)
    requires ch !in s && ch !in rep
    ensures ch !in ReplaceFirst(s, pat, rep)
    decreases |s|
  {
    if pat <= s {
      assert ch !in s[|pat|..];
    } else if |s| > 0 {
      assert ch !in s[1..];
      ReplaceFirstKeepsOut(s[1..], pat, rep, ch);
    }
  }

  // ---------------------------------------------------------------------------
  // Integers in template literals (`${n}`)

  predicate IsDigit(c: char)
  {
    '0' <= c <= '9'
  }

  function DigitChar(d: nat): (c: char)
    requires d < 10
    ensures IsDigit(c) && c as int - '0' as int == d
  {
    (d + '0' as int) as char
  }

  /** Decimal rendering of a natural number, as JavaScript prints it. */
  function NatToDecimal(n: nat): (s: string)
    ensures |s| >= 1
    ensures forall i :: 0 <= i < |s| ==> IsDigit(s[i])
    ensures |s| > 1 ==> s[0] != '0'
  {
    if n < 10 then [DigitChar(n)] else NatToDecimal(n / 10) + [DigitChar(n % 10)]
  }

  /** Decimal rendering of an integer, with a leading '-' for negatives. */
  function IntToDecimal(n: int): (s: string)
    ensures |s| >= 1 && (n >= 0 ==> IsDigit(s[0])) && (n < 0 ==> s[0] == '-')
    ensures forall i :: 0 < i < |s| ==> IsDigit(s[i])
  {
    if n < 0 then "-" + NatToDecimal(-n) else NatToDecimal(n)
  }

  /** The value of a string of decimal digits. */
  function ParseDecimal(s: string): nat
    requires forall i :: 0 <= i < |s| ==> IsDigit(s[i])
  {
    if |s| == 0 then 0
    else
      var last := s[|s| - 1];
      assert IsDigit(last);
      ParseDecimal(s[..|s| - 1]) * 10 + (last as int - '0' as int)
  }

  /** Parsing the decimal rendering of `n` gives `n` back. */
  lemma {:induction false} ParseNatToDecimal(n: nat)
    ensures ParseDecimal(NatToDecimal(n)) == n
  {
    if n >= 10 {
      var s := NatToDecimal(n);
      assert s[..|s| - 1] == NatToDecimal(n / 10);
      ParseNatToDecimal(n / 10);
    }
  }

  /** Distinct naturals render to distinct strings. */
  lemma NatToDecimalInjective(a: nat, b: nat)
    requires NatToDecimal(a) == NatToDecimal(b)
    ensures a == b
  {
    ParseNatToDecimal(a);
    ParseNatToDecimal(b);
  }

  /** Distinct integers render to distinct strings. */
  lemma IntToDecimalInjective(a: int, b: int)
    requires IntToDecimal(a) == IntToDecimal(b)
    ensures a == b
  {
    assert (a < 0) == (IntToDecimal(a)[0] == '-');
    assert (b < 0) == (IntToDecimal(b)[0] == '-');
    if a < 0 {
      assert NatToDecimal(-a) == IntToDecimal(a)[1..];
      assert NatToDecimal(-b) == IntToDecimal(b)[1..];
      NatToDecimalInjective(-a, -b);
    } else {
      NatToDecimalInjective(a, b);
    }
  }
}
