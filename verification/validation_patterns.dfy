/**
 * The table of validation patterns used by the forms, each regular
 * expression stated as a predicate over the input.
 *
 * None of the patterns carries the `u` flag, so JavaScript matches them
 * against the UTF-16 code units of the string, not its characters: a
 * character above U+FFFF is two code units (a surrogate pair), each of
 * which `.` and a negated class match on its own. The predicates below are
 * therefore stated over code units, and a form applies them to `Utf16(s)`.
 *
 * Classes are modelled as written: `.` matches any code unit but a line
 * terminator (LF, CR, U+2028, U+2029), `\s` is the ECMAScript
 * white-space-or-line-terminator set, `\S` its complement, `\d` is `[0-9]`.
 * A pattern without `^` may match anywhere, and a lookahead `(?=...)`
 * consumes nothing, so `(?=.{8,})` holds when some position starts eight
 * code units that are not line terminators.
 */
module ValidationPatterns {

  // ---------------------------------------------------------------------------
  // UTF-16

  /** A UTF-16 code unit. */
  type CodeUnit = n: int | 0 <= n < 0x1_0000

  predicate IsHighSurrogate(u: CodeUnit) { 0xD800 <= u < 0xDC00 }
  predicate IsLowSurrogate(u: CodeUnit) { 0xDC00 <= u < 0xE000 }

  /** The UTF-16 encoding of one character: itself below U+10000, a surrogate pair above. */
  function EncodeChar(c: char): (u: seq<CodeUnit>)
    ensures c as int < 0x1_0000 ==> u == [c as int]
    ensures c as int >= 0x1_0000 ==>
      |u| == 2 && IsHighSurrogate(u[0]) && IsLowSurrogate(u[1])
      && c as int == 0x1_0000 + (u[0] as int - 0xD800) * 0x400 + (u[1] as int - 0xDC00)
  {
    var n := c as int;
    if n < 0x1_0000 then [n]
    else
      var v := n - 0x1_0000;
      [0xD800 + v / 0x400, 0xDC00 + v % 0x400]
  }

  /** The code units JavaScript stores for a string. */
  function Utf16(s: string): (u: seq<CodeUnit>)
    ensures |s| <= |u| <= 2 * |s|
  {
    if |s| == 0 then [] else EncodeChar(s[0]) + Utf16(s[1..])
  }

  /** Encoding distributes over concatenation. */
  lemma {:induction false} Utf16Append(a: string, b: string)
    ensures Utf16(a + b) == Utf16(a) + Utf16(b)
  {
    if |a| > 0 {
      assert (a + b)[0] == a[0];
      assert (a + b)[1..] == a[1..] + b;
      Utf16Append(a[1..], b);
    } else {
      assert a + b == b;
    }
  }

  /** No character above U+FFFF. */
  predicate IsBmp(s: string)
  {
    forall k :: 0 <= k < |s| ==> s[k] as int < 0x1_0000
  }

  /** Below U+10000 the code units are the characters themselves. */
  lemma {:induction false} Utf16OfBmp(s: string)
    requires IsBmp(s)
    ensures |Utf16(s)| == |s|
    ensures forall k :: 0 <= k < |s| ==> Utf16(s)[k] == s[k] as int
  {
    if |s| > 0 {
      Utf16OfBmp(s[1..]);
      forall k | 0 <= k < |s| ensures Utf16(s)[k] == s[k] as int {
        if k > 0 {
          assert s[1..][k - 1] == s[k];
        }
      }
    }
  }

  // ---------------------------------------------------------------------------
  // Character classes, on code units

  predicate IsLineTerminator(u: CodeUnit)
  {
    u == 0x0A || u == 0x0D || u == 0x2028 || u == 0x2029
  }

  /** `\s` in an ECMAScript regular expression. */
  predicate IsWhitespace(u: CodeUnit)
  {
    (0x09 <= u <= 0x0D) || u == 0x20 || u == 0xA0 || u == 0x1680 ||
    (0x2000 <= u <= 0x200A) || u == 0x2028 || u == 0x2029 ||
    u == 0x202F || u == 0x205F || u == 0x3000 || u == 0xFEFF
  }

  predicate IsDigit(u: CodeUnit) { '0' as int <= u <= '9' as int }
  predicate IsUpper(u: CodeUnit) { 'A' as int <= u <= 'Z' as int }
  predicate IsLower(u: CodeUnit) { 'a' as int <= u <= 'z' as int }

  /** `[a-zA-Z0-9_\-.]` */
  predicate IsUsernameChar(u: CodeUnit)
  {
    IsLower(u) || IsUpper(u) || IsDigit(u) || u == '_' as int || u == '-' as int || u == '.' as int
  }

  /** `[a-zA-Z\d]` */
  predicate IsSlugChar(u: CodeUnit)
  {
    IsLower(u) || IsUpper(u) || IsDigit(u)
  }

  /** `[-\s0-9]` */
  predicate IsPhoneBodyChar(u: CodeUnit)
  {
    u == '-' as int || IsWhitespace(u) || IsDigit(u)
  }

  /** `[^\s$.?#]`: the first code unit after the scheme. */
  predicate IsUrlHostStart(u: CodeUnit)
  {
    !IsWhitespace(u) && u != '$' as int && u != '.' as int && u != '?' as int && u != '#' as int
  }

  predicate NoLineTerminator(u: seq<CodeUnit>)
  {
    forall k :: 0 <= k < |u| ==> !IsLineTerminator(u[k])
  }

  predicate NoWhitespace(u: seq<CodeUnit>)
  {
    forall k :: 0 <= k < |u| ==> !IsWhitespace(u[k])
  }

  lemma LineTerminatorIsWhitespace(u: CodeUnit)
    ensures IsLineTerminator(u) ==> IsWhitespace(u)
  {
  }

  /** A surrogate half is neither white space nor a line terminator, and may start a URL host. */
  lemma SurrogateIsOrdinary(u: CodeUnit)
    requires IsHighSurrogate(u) || IsLowSurrogate(u)
    ensures !IsWhitespace(u) && !IsLineTerminator(u) && IsUrlHostStart(u)
  {
  }

  // ---------------------------------------------------------------------------
  // Lookahead patterns

  /** Position `i` of `u` starts `n` code units none of which is a line terminator. */
  predicate RunAt(u: seq<CodeUnit>, i: nat, n: nat)
  {
    i + n <= |u| && NoLineTerminator(u[i..i + n])
  }

  /** `(?=.{n,})`, unanchored: some position starts `n` code units of one line. */
  predicate HasRunOfLength(u: seq<CodeUnit>, n: nat)
  {
    exists i: nat :: i <= |u| && RunAt(u, i, n)
  }

  /** On single-line input, `(?=.{n,})` holds exactly when the input has at least `n` code units. */
  lemma RunOfLengthOnOneLine(u: seq<CodeUnit>, n: nat)
    requires NoLineTerminator(u)
    ensures HasRunOfLength(u, n) <==> |u| >= n
  {
    if |u| >= n {
      assert RunAt(u, 0, n);
    }
  }

  /** `/(?=.{8,})/`: password length, counted in code units. */
  predicate PasswordLengthOk(u: seq<CodeUnit>)
    ensures NoLineTerminator(u) ==> (PasswordLengthOk(u) <==> |u| >= 8)
  {
    if NoLineTerminator(u) then RunOfLengthOnOneLine(u, 8); HasRunOfLength(u, 8)
    else HasRunOfLength(u, 8)
  }

  /** `/(?=.{5,})/`: username length, counted in code units. */
  predicate UsernameLengthOk(u: seq<CodeUnit>)
    ensures NoLineTerminator(u) ==> (UsernameLengthOk(u) <==> |u| >= 5)
  {
    if NoLineTerminator(u) then RunOfLengthOnOneLine(u, 5); HasRunOfLength(u, 5)
    else HasRunOfLength(u, 5)
  }

  /**
   * Four characters above U+FFFF are eight code units, enough for the
   * password length pattern, though the string has only four characters.
   */
  lemma AstralPasswordLength()
    ensures |"\U{1F600}\U{1F600}\U{1F600}\U{1F600}"| == 4
    ensures PasswordLengthOk(Utf16("\U{1F600}\U{1F600}\U{1F600}\U{1F600}"))
  {
    var s := "\U{1F600}\U{1F600}\U{1F600}\U{1F600}";
    var u := Utf16(s);
    assert u == EncodeChar(s[0]) + EncodeChar(s[1]) + EncodeChar(s[2]) + EncodeChar(s[3]);
    forall k | 0 <= k < 8 ensures !IsLineTerminator(u[0..8][k]) {
      SurrogateIsOrdinary(u[k]);
    }
    assert RunAt(u, 0, 8);
  }

  /** `(?=.*[X])`, unanchored: from some position, code units of one line lead to a member of the class. */
  predicate LookaheadFinds(u: seq<CodeUnit>, cls: CodeUnit -> bool)
  {
    exists p, q :: 0 <= p <= q < |u| && NoLineTerminator(u[p..q]) && cls(u[q])
  }

  predicate ContainsClass(u: seq<CodeUnit>, cls: CodeUnit -> bool)
  {
    exists q :: 0 <= q < |u| && cls(u[q])
  }

  /** `(?=.*[X])` holds exactly when the input contains a code unit of the class. */
  lemma LookaheadFindsIffContains(u: seq<CodeUnit>, cls: CodeUnit -> bool)
    ensures LookaheadFinds(u, cls) <==> ContainsClass(u, cls)
  {
    if ContainsClass(u, cls) {
      var q :| 0 <= q < |u| && cls(u[q]);
      assert NoLineTerminator(u[q..q]);
    }
  }

  /** `/(?=.*[0-9])/` */
  predicate PasswordHasDigit(u: seq<CodeUnit>)
    ensures PasswordHasDigit(u) <==> exists q :: 0 <= q < |u| && IsDigit(u[q])
  {
    LookaheadFindsIffContains(u, IsDigit); LookaheadFinds(u, IsDigit)
  }

  /** `/(?=.*[A-Z])/` */
  predicate PasswordHasUpper(u: seq<CodeUnit>)
    ensures PasswordHasUpper(u) <==> exists q :: 0 <= q < |u| && IsUpper(u[q])
  {
    LookaheadFindsIffContains(u, IsUpper); LookaheadFinds(u, IsUpper)
  }

  /** `/(?=.*[a-z])/` */
  predicate PasswordHasLower(u: seq<CodeUnit>)
    ensures PasswordHasLower(u) <==> exists q :: 0 <= q < |u| && IsLower(u[q])
  {
    LookaheadFindsIffContains(u, IsLower); LookaheadFinds(u, IsLower)
  }

  // ---------------------------------------------------------------------------
  // Anchored patterns

  /**
   * `/^[a-zA-Z0-9_\-.]{5,}$/`. A username of allowed characters is one line
   * and so also passes the length pattern.
   */
  predicate UsernameCharactersOk(u: seq<CodeUnit>)
    ensures UsernameCharactersOk(u) ==> NoLineTerminator(u) && UsernameLengthOk(u)
  {
    |u| >= 5 && forall k :: 0 <= k < |u| ==> IsUsernameChar(u[k])
  }

  /**
   * `/\S+/`, unanchored: some code unit is not white space. This one pattern
   * is shared by the attribute-name, label-name and attribute-value rules.
   */
  predicate HasNonWhitespace(u: seq<CodeUnit>)
    ensures HasNonWhitespace(u) ==> |u| >= 1
    ensures |u| >= 1 && NoWhitespace(u) ==> HasNonWhitespace(u)
  {
    assert |u| >= 1 && NoWhitespace(u) ==> !IsWhitespace(u[0]);
    exists k :: 0 <= k < |u| && !IsWhitespace(u[k])
  }

  /** `/^[a-zA-Z\d]+$/`: organization slug. */
  predicate OrganizationSlugOk(u: seq<CodeUnit>)
    ensures OrganizationSlugOk(u) ==> NoWhitespace(u) && HasNonWhitespace(u)
    ensures OrganizationSlugOk(u) && |u| >= 5 ==> UsernameCharactersOk(u)
  {
    |u| >= 1 && forall k :: 0 <= k < |u| ==> IsSlugChar(u[k])
  }

  // ---------------------------------------------------------------------------
  // URL

  /** The code units of "http://" and "https://". */
  const HttpScheme: seq<CodeUnit> := [0x68, 0x74, 0x74, 0x70, 0x3A, 0x2F, 0x2F]
  const HttpsScheme: seq<CodeUnit> := [0x68, 0x74, 0x74, 0x70, 0x73, 0x3A, 0x2F, 0x2F]

  lemma SchemeUnits()
    ensures Utf16("http://") == HttpScheme && Utf16("https://") == HttpsScheme
  {
    BmpUnits("http://", HttpScheme);
    BmpUnits("https://", HttpsScheme);
  }

  /** A string below U+10000 encodes to the code units that spell it. */
  lemma BmpUnits(s: string, u: seq<CodeUnit>)
    requires |s| == |u| && forall k :: 0 <= k < |s| ==> s[k] as int == u[k]
    ensures Utf16(s) == u
  {
    Utf16OfBmp(s);
  }

  /** The part after the scheme of `/^(https?:\/\/)[^\s$.?#].[^\s]*$/`. */
  predicate UrlRest(t: seq<CodeUnit>)
  {
    |t| >= 2 && IsUrlHostStart(t[0]) && !IsLineTerminator(t[1]) && NoWhitespace(t[2..])
  }

  /** `/^(https?:\/\/)[^\s$.?#].[^\s]*$/`: the URL pattern. */
  predicate UrlPattern(u: seq<CodeUnit>)
    ensures UrlPattern(u) ==> |u| >= 9 && (u[..7] == HttpScheme || u[..8] == HttpsScheme)
  {
    (HttpScheme <= u && UrlRest(u[7..])) || (HttpsScheme <= u && UrlRest(u[8..]))
  }

  /** Every accepted URL is one line: no code unit of it is a line terminator. */
  lemma UrlPatternIsOneLine(u: seq<CodeUnit>)
    requires UrlPattern(u)
    ensures NoLineTerminator(u)
  {
    var n := if HttpScheme <= u && UrlRest(u[7..]) then 7 else 8;
    var t := u[n..];
    forall k | 0 <= k < |u| ensures !IsLineTerminator(u[k]) {
      if k < n {
        assert u[k] in (if n == 7 then HttpScheme else HttpsScheme);
      } else if k == n {
        assert u[k] == t[0];
      } else if k == n + 1 {
        assert u[k] == t[1];
      } else {
        assert u[k] == t[2..][k - n - 2];
      }
    }
  }

  /** Appending characters that are not white space to an accepted URL keeps it accepted. */
  lemma UrlPatternExtends(u: seq<CodeUnit>, w: seq<CodeUnit>)
    requires UrlPattern(u) && NoWhitespace(w)
    ensures UrlPattern(u + w)
  {
    var n := if HttpScheme <= u && UrlRest(u[7..]) then 7 else 8;
    var t := u[n..];
    assert (u + w)[n..] == t + w;
    assert (t + w)[2..] == t[2..] + w;
    assert u[..n] == (u + w)[..n];
  }

  /** The shape of an accepted URL: a scheme, two code units, then no white space. */
  lemma UrlPatternParts(u: seq<CodeUnit>) returns (scheme: seq<CodeUnit>, c1: CodeUnit, c2: CodeUnit, rest: seq<CodeUnit>)
    requires UrlPattern(u)
    ensures scheme == HttpScheme || scheme == HttpsScheme
    ensures u == scheme + [c1, c2] + rest
    ensures IsUrlHostStart(c1) && !IsLineTerminator(c2) && NoWhitespace(rest)
  {
    scheme := if HttpScheme <= u && UrlRest(u[7..]) then HttpScheme else HttpsScheme;
    var t := u[|scheme|..];
    c1, c2, rest := t[0], t[1], t[2..];
    assert u == u[..|scheme|] + t;
    assert t == [c1, c2] + rest;
  }

  /** Any scheme, host start, second code unit and white-space-free rest form an accepted URL. */
  lemma UrlPatternFromParts(scheme: seq<CodeUnit>, c1: CodeUnit, c2: CodeUnit, rest: seq<CodeUnit>)
    requires scheme == HttpScheme || scheme == HttpsScheme
    requires IsUrlHostStart(c1) && !IsLineTerminator(c2) && NoWhitespace(rest)
    ensures UrlPattern(scheme + [c1, c2] + rest)
  {
    var u := scheme + [c1, c2] + rest;
    assert u[|scheme|..] == [c1, c2] + rest;
    assert ([c1, c2] + rest)[2..] == rest;
    assert u[..|scheme|] == scheme;
  }

  /**
   * A host made of one character above U+FFFF is accepted: its two
   * surrogate halves fill `[^\s$.?#]` and `.`.
   */
  lemma AstralHostAccepted()
    ensures UrlPattern(Utf16("http://\U{1F600}"))
  {
    SchemeUnits();
    var c := '\U{1F600}';
    Utf16Append("http://", [c]);
    assert "http://\U{1F600}" == "http://" + [c];
    var e := EncodeChar(c);
    assert Utf16([c]) == e;
    SurrogateIsOrdinary(e[0]);
    SurrogateIsOrdinary(e[1]);
    UrlPatternFromParts(HttpScheme, e[0], e[1], []);
    assert e == [e[0], e[1]];
  }

  // ---------------------------------------------------------------------------
  // Phone number

  /** The first `k` code units of `u` are all '+' and the rest are all `[-\s0-9]`. */
  predicate PhoneSplitAt(u: seq<CodeUnit>, k: nat)
  {
    k <= |u| && (forall i :: 0 <= i < k ==> u[i] == '+' as int)
             && (forall i :: k <= i < |u| ==> IsPhoneBodyChar(u[i]))
  }

  /** `/^[+]*[-\s0-9]*$/` as written: some split into a run of '+' and a body of `[-\s0-9]`. */
  predicate PhonePattern(u: seq<CodeUnit>)
  {
    exists k: nat :: k <= |u| && PhoneSplitAt(u, k)
  }

  /** The number of leading '+' code units. */
  function LeadingPluses(u: seq<CodeUnit>): (k: nat)
    ensures k <= |u|
    ensures forall i :: 0 <= i < k ==> u[i] == '+' as int
    ensures k < |u| ==> u[k] != '+' as int
  {
    if |u| > 0 && u[0] == '+' as int then 1 + LeadingPluses(u[1..]) else 0
  }

  /** The phone pattern holds exactly when everything after the leading '+' run is `[-\s0-9]`. */
  lemma PhonePatternIff(u: seq<CodeUnit>)
    ensures PhonePattern(u) <==>
      forall i :: LeadingPluses(u) <= i < |u| ==> IsPhoneBodyChar(u[i])
  {
    var m := LeadingPluses(u);
    if PhonePattern(u) {
      var k: nat :| k <= |u| && PhoneSplitAt(u, k);
      assert k < |u| ==> u[k] != '+' as int;
      assert m < |u| ==> u[m] != '+' as int;
    } else {
      assert !PhoneSplitAt(u, m);
    }
  }

  /** The empty string is an acceptable phone number. */
  lemma PhonePatternAcceptsEmpty()
    ensures PhonePattern(Utf16(""))
  {
    assert PhoneSplitAt(Utf16(""), 0);
  }
}
