/** The IBAN check of the bank-details form: MOD 97-10 of ISO/IEC 7064, prescribed for IBANs by
    ISO 13616-1, and which typing errors it catches. */
module Iban {
  import opened Prelude

  predicate IsDigit(c: char) { '0' <= c <= '9' }
  predicate IsUpper(c: char) { 'A' <= c <= 'Z' }
  predicate IsAlnum(c: char) { IsDigit(c) || IsUpper(c) }
  predicate Alphanumeric(s: string) { forall i :: 0 <= i < |s| ==> IsAlnum(s[i]) }

  function DigitChar(d: nat): char
    requires d < 10
  {
    '0' + d as char
  }

  /** Letters become two decimal digits (A = 10 .. Z = 35), digits stay. */
  function Expand(c: char): string
    requires IsAlnum(c)
  {
    if IsUpper(c) then var n := c as int - 55; [DigitChar(n / 10), DigitChar(n % 10)] else [c]
  }

  function Numeric(s: string): string
    requires Alphanumeric(s)
  {
    if s == "" then "" else Numeric(s[..|s| - 1]) + Expand(s[|s| - 1])
  }

  predicate Decimal(t: string) { forall i :: 0 <= i < |t| ==> IsDigit(t[i]) }

  /** The number a decimal string denotes. */
  function BigInt(t: string): nat
    requires Decimal(t)
  {
    if t == "" then 0 else BigInt(t[..|t| - 1]) * 10 + (t[|t| - 1] as int - '0' as int)
  }

  lemma NumericIsDecimal(s: string)
    requires Alphanumeric(s)
    ensures Decimal(Numeric(s))
  {
    if s != "" { NumericIsDecimal(s[..|s| - 1]); }
  }

  function ValidateMod97(iban: string): bool
    requires |iban| >= 4 && Alphanumeric(iban)
  {
    var rearranged := iban[4..] + iban[..4];
    NumericIsDecimal(rearranged);
    BigInt(Numeric(rearranged)) % 97 == 1
  }

  // ---- the schema refinement ----

  /** The white space of JavaScript's `\s` and `trim`. */
  predicate IsSpace(c: char) {
    var n := c as int;
    9 <= n <= 13 || 0x2000 <= n <= 0x200A
    || n in {0x20, 0xA0, 0x1680, 0x2028, 0x2029, 0x202F, 0x205F, 0x3000, 0xFEFF}
  }

  function ToUpper(c: char): char {
    if 'a' <= c <= 'z' then c - 'a' + 'A' else c
  }

  /** `val.replace(/\s+/g, '').toUpperCase()` */
  function Cleaned(val: string): string {
    if val == "" then ""
    else (if IsSpace(val[0]) then "" else [ToUpper(val[0])]) + Cleaned(val[1..])
  }

  /** `/^[A-Z]{2}\d{2}[A-Z0-9]{11,30}$/` */
  predicate WellFormed(s: string) {
    && 15 <= |s| <= 34
    && Alphanumeric(s)
    && IsUpper(s[0]) && IsUpper(s[1]) && IsDigit(s[2]) && IsDigit(s[3])
  }

  predicate AcceptsIban(val: Option<string>) {
    match val
    case None => true
    case Some(v) =>
      var cleaned := Cleaned(v);
      (forall i :: 0 <= i < |v| ==> IsSpace(v[i])) || (WellFormed(cleaned) && ValidateMod97(cleaned))
  }

  // ---- an IBAN as a number ----

  function ValueOf(c: char): nat
    requires IsAlnum(c)
  {
    if IsUpper(c) then c as int - 55 else c as int - '0' as int
  }

  function Base(c: char): nat { if IsUpper(c) then 100 else 10 }

  function Number(s: string): nat
    requires Alphanumeric(s)
  {
    if s == "" then 0 else Number(s[..|s| - 1]) * Base(s[|s| - 1]) + ValueOf(s[|s| - 1])
  }

  function Scale(s: string): nat {
    if s == "" then 1 else Scale(s[..|s| - 1]) * Base(s[|s| - 1])
  }

  lemma BigIntAppend(t: string, d: char)
    requires Decimal(t) && IsDigit(d)
    ensures Decimal(t + [d]) && BigInt(t + [d]) == BigInt(t) * 10 + (d as int - '0' as int)
  {
    assert (t + [d])[..|t|] == t;
  }

  /** Appending an expanded character multiplies by its base and adds its value. */
  lemma BigIntExpand(t: string, c: char)
    requires Decimal(t) && IsAlnum(c)
    ensures Decimal(t + Expand(c)) && BigInt(t + Expand(c)) == BigInt(t) * Base(c) + ValueOf(c)
  {
    hide BigInt;
    var e := Expand(c);
    if IsUpper(c) {
      BigIntAppend(t, e[0]);
      BigIntAppend(t + [e[0]], e[1]);
      assert t + e == (t + [e[0]]) + [e[1]];
    } else {
      BigIntAppend(t, c);
    }
  }

  lemma {:induction false} BigIntOfNumeric(s: string)
    requires Alphanumeric(s)
    ensures Decimal(Numeric(s)) && BigInt(Numeric(s)) == Number(s)
  {
    if s != "" {
      var p, c := s[..|s| - 1], s[|s| - 1];
      BigIntOfNumeric(p);
      BigIntExpand(Numeric(p), c);
    }
  }

  lemma {:induction false} NumberOfConcat(x: string, y: string)
    requires Alphanumeric(x) && Alphanumeric(y)
    ensures Alphanumeric(x + y) && Number(x + y) == Number(x) * Scale(y) + Number(y)
  {
    if y == "" {
      assert x + y == x;
    } else {
      var p, c := y[..|y| - 1], y[|y| - 1];
      NumberOfConcat(x, p);
      assert (x + y)[..|x + y| - 1] == x + p;
      Distribute(Number(x), Scale(p), Number(p), Base(c));
    }
  }

  lemma Distribute(a: int, b: int, c: int, k: int)
    ensures (a * b + c) * k == a * (b * k) + c * k
  {
  }

  /** The check, read off the parts of an IBAN: country code and check digits move to the end. */
  lemma CheckIsResidue(head: string, tail: string)
    requires |head| == 4 && Alphanumeric(head) && Alphanumeric(tail)
    ensures Alphanumeric(head + tail) && Alphanumeric(tail + head)
    ensures ValidateMod97(head + tail) == (Number(tail + head) % 97 == 1)
  {
    NumberOfConcat(tail, head);
    NumberOfConcat(head, tail);
    assert (head + tail)[4..] + (head + tail)[..4] == tail + head;
    BigIntOfNumeric(tail + head);
  }

  // ---- 97 is prime to every power of ten ----

  lemma TimesTenKeepsNonzero(x: int)
    requires (10 * x) % 97 == 0
    ensures x % 97 == 0
  {
    var m := (10 * x) / 97;
    assert x == 97 * (68 * m - 7 * x);
  }

  lemma {:induction false} ScaleKeepsNonzero(d: int, s: string)
    requires d % 97 != 0
    ensures (d * Scale(s)) % 97 != 0
  {
    if s != "" {
      var p, c := s[..|s| - 1], s[|s| - 1];
      ScaleKeepsNonzero(d, p);
      var x := d * Scale(p);
      assert d * Scale(s) == x * Base(c);
      if (x * Base(c)) % 97 == 0 {
        if IsUpper(c) { TimesTenKeepsNonzero(10 * x); }
        TimesTenKeepsNonzero(x);
      }
    }
  }

  lemma Congruent(a: int, b: int)
    ensures a % 97 == b % 97 <==> (a - b) % 97 == 0
  {
  }

  lemma ScaleKeepsResidue(d: int, s: string)
    ensures (d * Scale(s)) % 97 == 0 <==> d % 97 == 0
  {
    if d % 97 != 0 {
      ScaleKeepsNonzero(d, s);
    } else {
      var k := d / 97;
      assert d == 97 * k;
      assert d * Scale(s) == 97 * (k * Scale(s));
    }
  }

  function Splice(high: int, piece: int, scale: int, low: int): int { (high + piece) * scale + low }

  lemma PieceResidue(a: int, b: int, high: int, low: int, w: string)
    ensures Splice(high, a, Scale(w), low) % 97 == Splice(high, b, Scale(w), low) % 97 <==> (a - b) % 97 == 0
  {
    ScaleKeepsResidue(a - b, w);
    assert Splice(high, a, Scale(w), low) - Splice(high, b, Scale(w), low) == (a - b) * Scale(w);
    Congruent(Splice(high, a, Scale(w), low), Splice(high, b, Scale(w), low));
  }

  /** Replacing an inner piece by one of the same length in digits changes the residue of the whole
      if and only if it changes the residue of the piece. */
  lemma ReplacePiece(u: string, x: string, y: string, w: string)
    requires Alphanumeric(u) && Alphanumeric(x) && Alphanumeric(y) && Alphanumeric(w)
    requires Scale(x) == Scale(y)
    ensures Alphanumeric(u + x + w) && Alphanumeric(u + y + w)
    ensures Number(u + x + w) % 97 == Number(u + y + w) % 97 <==> (Number(x) - Number(y)) % 97 == 0
  {
    hide Number, Scale, Splice;
    ConcatThree(u, x, w);
    ConcatThree(u, y, w);
    PieceResidue(Number(x), Number(y), Number(u) * Scale(x), Number(w), w);
  }

  lemma ConcatThree(u: string, x: string, w: string)
    requires Alphanumeric(u) && Alphanumeric(x) && Alphanumeric(w)
    ensures Alphanumeric(u + x + w)
    ensures Number(u + x + w) == Splice(Number(u) * Scale(x), Number(x), Scale(w), Number(w))
  {
    hide Number, Scale;
    NumberOfConcat(u, x);
    NumberOfConcat(u + x, w);
  }

  // ---- what the form ignores, and what it asks ----

  lemma {:induction false} CleanedConcat(a: string, b: string)
    ensures Cleaned(a + b) == Cleaned(a) + Cleaned(b)
  {
    hide IsSpace, ToUpper;
    if a == "" {
      assert a + b == b;
    } else {
      CleanedConcat(a[1..], b);
      assert (a + b)[0] == a[0] && (a + b)[1..] == a[1..] + b;
      var first := if IsSpace(a[0]) then "" else [ToUpper(a[0])];
      assert first + (Cleaned(a[1..]) + Cleaned(b)) == (first + Cleaned(a[1..])) + Cleaned(b);
    }
  }

  lemma {:induction false} CleanedIsEmptyIff(val: string)
    ensures Cleaned(val) == "" <==> forall i :: 0 <= i < |val| ==> IsSpace(val[i])
  {
    if val != "" {
      CleanedIsEmptyIff(val[1..]);
      assert forall i :: 0 < i < |val| ==> val[i] == val[1..][i - 1];
      assert forall i :: 0 <= i < |val[1..]| ==> val[1..][i] == val[i + 1];
    }
  }

  lemma SameWhenCleaned(v: string, w: string)
    requires Cleaned(v) == Cleaned(w)
    ensures AcceptsIban(Some(v)) <==> AcceptsIban(Some(w))
  {
    hide Cleaned, WellFormed, ValidateMod97;
    CleanedIsEmptyIff(v);
    CleanedIsEmptyIff(w);
  }

  /** White space in the field does not matter, wherever it stands. */
  lemma SpacesDoNotMatter(a: string, space: char, b: string)
    requires space == ' ' || space == '\t' || space == '\n' || space == '\r' || IsSpace(space)
    ensures AcceptsIban(Some(a + [space] + b)) <==> AcceptsIban(Some(a + b))
  {
    hide AcceptsIban;
    CleanedConcat(a + [space], b);
    CleanedConcat(a, [space]);
    CleanedConcat(a, b);
    assert Cleaned([space]) == "";
    SameWhenCleaned(a + [space] + b, a + b);
  }

  /** Nor does the case of a letter. */
  lemma CaseDoesNotMatter(a: string, letter: char, b: string)
    requires 'a' <= letter <= 'z'
    ensures AcceptsIban(Some(a + [letter] + b)) <==> AcceptsIban(Some(a + [letter - 'a' + 'A'] + b))
  {
    hide AcceptsIban;
    var upper := letter - 'a' + 'A';
    CleanedConcat(a + [letter], b);
    CleanedConcat(a, [letter]);
    CleanedConcat(a + [upper], b);
    CleanedConcat(a, [upper]);
    assert Cleaned([letter]) == [upper] == Cleaned([upper]);
    SameWhenCleaned(a + [letter] + b, a + [upper] + b);
  }

  /** A field that is filled in is accepted exactly when, without its spaces and in upper case, it has two letters,
      two digits and 11 to 30 further letters or digits, and leaves 1 when the number of the rearranged characters is
      divided by 97; an empty field is accepted too. */
  lemma FieldIsExact(val: string)
    ensures AcceptsIban(None) && (val == "" ==> AcceptsIban(Some(val)))
    ensures (exists i :: 0 <= i < |val| && !IsSpace(val[i])) ==> var s := Cleaned(val);
              AcceptsIban(Some(val)) <==>
                && 15 <= |s| <= 34
                && (forall i :: 0 <= i < |s| ==> 'A' <= s[i] <= 'Z' || '0' <= s[i] <= '9')
                && 'A' <= s[0] <= 'Z' && 'A' <= s[1] <= 'Z' && '0' <= s[2] <= '9' && '0' <= s[3] <= '9'
                && Number(s[4..] + s[..4]) % 97 == 1
  {
    hide Cleaned, Number, ValidateMod97;
    var s := Cleaned(val);
    if WellFormed(s) { Rearranged(s); }
  }

  // ---- typing errors ----

  /** One character exchanged for another of its class: a digit for a digit, a letter for a letter. */
  predicate SameClass(c: char, d: char) {
    IsAlnum(c) && IsAlnum(d) && IsUpper(c) == IsUpper(d)
  }

  function Swap(s: string, p: nat): string
    requires p + 1 < |s|
  {
    s[..p] + [s[p + 1], s[p]] + s[p + 2..]
  }

  /** Where position p of an IBAN ends up after the first four characters moved to the end. */
  function Moved(n: nat, p: nat): nat
    requires n >= 4 && p < n
  {
    if p >= 4 then p - 4 else n - 4 + p
  }

  lemma CleanedIsIdentity(s: string)
    requires Alphanumeric(s)
    ensures Cleaned(s) == s
  {
    if s != "" { CleanedIsIdentity(s[1..]); }
  }

  lemma FieldOnCleanInput(s: string)
    requires WellFormed(s)
    ensures AcceptsIban(Some(s)) == ValidateMod97(s)
  {
    CleanedIsIdentity(s);
    assert !IsSpace(s[0]);
  }

  lemma Rearranged(s: string)
    requires |s| >= 4 && Alphanumeric(s)
    ensures var r := s[4..] + s[..4]; Alphanumeric(r) && ValidateMod97(s) == (Number(r) % 97 == 1)
  {
    CheckIsResidue(s[..4], s[4..]);
    assert s[..4] + s[4..] == s;
  }

  lemma RearrangedSubstitution(s: string, c: char, p: nat)
    requires |s| >= 4 && p < |s|
    ensures var k, t := Moved(|s|, p), s[p := c]; var r := s[4..] + s[..4];
      r == r[..k] + [s[p]] + r[k + 1..] && t[4..] + t[..4] == r[..k] + [c] + r[k + 1..]
  {
  }

  /** Every single substitution within a class, at any position, is detected. */
  lemma SubstitutionIsDetected(s: string, c: char, p: nat)
    requires WellFormed(s) && p < |s| && c != s[p] && SameClass(c, s[p])
    requires AcceptsIban(Some(s))
    ensures WellFormed(s[p := c]) && !AcceptsIban(Some(s[p := c]))
  {
    var t := s[p := c];
    assert Alphanumeric(t);
    FieldOnCleanInput(s);
    FieldOnCleanInput(t);
    Rearranged(s);
    Rearranged(t);
    RearrangedSubstitution(s, c, p);
    var r, k := s[4..] + s[..4], Moved(|s|, p);
    SubstitutionResidue(r[..k], s[p], c, r[k + 1..]);
  }

  lemma SubstitutionResidue(u: string, c: char, d: char, w: string)
    requires Alphanumeric(u) && Alphanumeric(w) && c != d && SameClass(c, d)
    ensures Alphanumeric(u + [c] + w) && Alphanumeric(u + [d] + w)
    ensures Number(u + [c] + w) % 97 != Number(u + [d] + w) % 97
  {
    SingleNumber(c);
    SingleNumber(d);
    ReplacePiece(u, [c], [d], w);
  }

  lemma SingleNumber(c: char)
    requires IsAlnum(c)
    ensures Number([c]) == ValueOf(c) && Scale([c]) == Base(c)
  {
    assert [c][..0] == "";
  }

  lemma PairNumber(c: char, d: char)
    requires IsAlnum(c) && IsAlnum(d)
    ensures Number([c, d]) == ValueOf(c) * Base(d) + ValueOf(d)
    ensures Scale([c, d]) == Base(c) * Base(d)
  {
    SingleNumber(c);
    assert [c, d][..1] == [c];
  }

  /** The three unordered pairs whose exchange leaves the residue alone: 1 and B, 2 and M, 3 and X. */
  predicate BlindPair(c: char, d: char) {
    (c, d) in {('1', 'B'), ('B', '1'), ('2', 'M'), ('M', '2'), ('3', 'X'), ('X', '3')}
  }

  /** A swap of two neighbours on the same side of position 4 goes unnoticed by the form exactly when
      they are equal, or one of the three blind pairs behind the check digits. A blind pair at
      positions 1 and 2 has the right residue and is rejected for its format. Two distinct characters of
      one class are never a blind pair, so within a class every swap is detected. */
  lemma SwapIsDetectedUnlessBlind(s: string, p: nat)
    requires WellFormed(s) && p + 1 < |s| && p != 3
    requires AcceptsIban(Some(s))
    ensures Alphanumeric(Swap(s, p))
    ensures AcceptsIban(Some(Swap(s, p))) <==> s[p] == s[p + 1] || (p >= 4 && BlindPair(s[p], s[p + 1]))
    ensures ValidateMod97(Swap(s, p)) <==> s[p] == s[p + 1] || BlindPair(s[p], s[p + 1])
    ensures SameClass(s[p], s[p + 1]) ==> !BlindPair(s[p], s[p + 1])
  {
    SwapKeepsFormat(s, p);
    FieldOnCleanInput(s);
    SwapChangesCheck(s, p);
    if p == 1 {
      IllFormedIsRejected(Swap(s, p));
    } else {
      FieldOnCleanInput(Swap(s, p));
    }
  }

  lemma IllFormedIsRejected(s: string)
    requires s != "" && Alphanumeric(s) && !WellFormed(s)
    ensures !AcceptsIban(Some(s))
  {
    CleanedIsIdentity(s);
    assert !IsSpace(s[0]);
  }

  lemma SwapKeepsFormat(s: string, p: nat)
    requires WellFormed(s) && p + 1 < |s|
    ensures Alphanumeric(Swap(s, p)) && |Swap(s, p)| == |s|
    ensures p != 3 ==> (WellFormed(Swap(s, p)) <==> p != 1)
  {
    var t := Swap(s, p);
    assert forall i :: 0 <= i < |s| && i != p && i != p + 1 ==> t[i] == s[i];
    assert t[p] == s[p + 1] && t[p + 1] == s[p];
  }

  lemma SwapChangesCheck(s: string, p: nat)
    requires |s| >= 4 && p + 1 < |s| && p != 3 && Alphanumeric(s) && Alphanumeric(Swap(s, p))
    requires ValidateMod97(s)
    ensures ValidateMod97(Swap(s, p)) <==> s[p] == s[p + 1] || BlindPair(s[p], s[p + 1])
  {
    Rearranged(s);
    Rearranged(Swap(s, p));
    RearrangedSwap(s, p);
    var r, k := s[4..] + s[..4], Moved(|s|, p);
    SwapResidue(r[..k], s[p], s[p + 1], r[k + 2..]);
  }

  lemma SwapInTail(s: string, p: nat)
    requires 4 <= p && p + 1 < |s|
    ensures var k, t := p - 4, Swap(s, p); var r := s[4..] + s[..4];
      r[..k] == s[4..p] && r[k + 2..] == s[p + 2..] + s[..4]
      && t[4..] == s[4..p] + [s[p + 1], s[p]] + s[p + 2..] && t[..4] == s[..4]
  {
  }

  lemma SwapInHead(s: string, p: nat)
    requires p < 3 && 4 <= |s|
    ensures var k, t := |s| - 4 + p, Swap(s, p); var r := s[4..] + s[..4];
      r[..k] == s[4..] + s[..p] && r[k + 2..] == s[p + 2..4]
      && t[4..] == s[4..] && t[..4] == s[..p] + [s[p + 1], s[p]] + s[p + 2..4]
  {
  }

  lemma Regroup(a: string, b: string, c: string, d: string)
    ensures a + b + c + d == a + b + (c + d) == a + (b + c + d)
  {
  }

  lemma PairAt(r: string, k: nat, c: char, d: char)
    requires k + 2 <= |r| && r[k] == c && r[k + 1] == d
    ensures r == r[..k] + [c, d] + r[k + 2..]
  {
  }

  lemma MovedPair(s: string, p: nat)
    requires |s| >= 4 && p + 1 < |s| && p != 3
    ensures var k, r := Moved(|s|, p), s[4..] + s[..4];
      k + 2 <= |r| && r[k] == s[p] && r[k + 1] == s[p + 1]
  {
  }

  lemma RearrangedSwap(s: string, p: nat)
    requires |s| >= 4 && p + 1 < |s| && p != 3
    ensures var k, t := Moved(|s|, p), Swap(s, p); var r := s[4..] + s[..4];
      && k + 2 <= |r|
      && r == r[..k] + [s[p], s[p + 1]] + r[k + 2..]
      && t[4..] + t[..4] == r[..k] + [s[p + 1], s[p]] + r[k + 2..]
  {
    hide Swap;
    var pair := [s[p + 1], s[p]];
    MovedPair(s, p);
    PairAt(s[4..] + s[..4], Moved(|s|, p), s[p], s[p + 1]);
    if p >= 4 {
      SwapInTail(s, p);
      Regroup(s[4..p], pair, s[p + 2..], s[..4]);
    } else {
      SwapInHead(s, p);
      Regroup(s[4..], s[..p], pair, s[p + 2..4]);
    }
  }

  lemma SwapResidue(u: string, c: char, d: char, w: string)
    requires Alphanumeric(u) && Alphanumeric(w) && IsAlnum(c) && IsAlnum(d)
    ensures Alphanumeric(u + [c, d] + w) && Alphanumeric(u + [d, c] + w)
    ensures Number(u + [c, d] + w) % 97 == Number(u + [d, c] + w) % 97 <==> c == d || BlindPair(c, d)
  {
    PairNumber(c, d);
    PairNumber(d, c);
    ReplacePiece(u, [c, d], [d, c], w);
    PairResidue(c, d);
  }

  lemma ValueIsInjective(c: char, d: char)
    requires IsAlnum(c) && IsAlnum(d)
    ensures ValueOf(c) == ValueOf(d) <==> c == d
    ensures IsUpper(c) ==> 10 <= ValueOf(c) <= 35
    ensures !IsUpper(c) ==> ValueOf(c) <= 9
  {
  }

  lemma PairResidue(c: char, d: char)
    requires IsAlnum(c) && IsAlnum(d)
    ensures var change := ValueOf(c) * Base(d) + ValueOf(d) - (ValueOf(d) * Base(c) + ValueOf(c));
      change % 97 == 0 <==> c == d || BlindPair(c, d)
  {
    ValueIsInjective(c, d);
    ValueIsInjective(d, c);
    var x, y := ValueOf(c), ValueOf(d);
    if IsUpper(c) && IsUpper(d) {
      LettersResidue(x, y);
    } else if IsUpper(c) {
      MixedResidue(x, y);
    } else if IsUpper(d) {
      MixedResidue(y, x);
    }
  }

  lemma LettersResidue(x: nat, y: nat)
    requires 10 <= x <= 35 && 10 <= y <= 35
    ensures (x * 100 + y - (y * 100 + x)) % 97 == 0 <==> x == y
  {
  }

  lemma MixedResidue(letter: nat, digit: nat)
    requires 10 <= letter <= 35 && digit <= 9
    ensures (9 * letter - 99 * digit) % 97 == 0 <==> letter == 11 * digit && 1 <= digit <= 3
    ensures (99 * digit - 9 * letter) % 97 == 0 <==> letter == 11 * digit && 1 <= digit <= 3
  {
    NineTimes(letter - 11 * digit);
    NineTimes(11 * digit - letter);
  }

  lemma NineTimes(x: int)
    requires -97 < x < 97
    ensures (9 * x) % 97 == 0 <==> x == 0
  {
    if (9 * x) % 97 == 0 {
      var m := (9 * x) / 97;
      assert x == 97 * (54 * m - 5 * x);
    }
  }

  // ---- check digits ----

  function TwoDigits(n: nat): string
    requires n < 100
  {
    [DigitChar(n / 10), DigitChar(n % 10)]
  }

  /** The check number that belongs to a country code and a basic bank account number. */
  function CheckNumber(country: string, bban: string): nat
    requires Alphanumeric(country) && Alphanumeric(bban)
  {
    98 - (Number(bban + country) * 100) % 97
  }

  /** A two-digit check number is accepted if and only if it is congruent to the right one modulo
      97; so exactly one of 02..98 is, and it is 98 minus the residue with check digits 00. */
  lemma ExactlyOneCheckNumber(country: string, bban: string, n: nat)
    requires |country| == 2 && IsUpper(country[0]) && IsUpper(country[1])
    requires 11 <= |bban| <= 30 && Alphanumeric(bban) && n < 100
    ensures WellFormed(country + TwoDigits(n) + bban)
    ensures AcceptsIban(Some(country + TwoDigits(n) + bban)) <==> n % 97 == CheckNumber(country, bban) % 97
    ensures 2 <= CheckNumber(country, bban) <= 98
    ensures 2 <= n <= 98 ==>
              (AcceptsIban(Some(country + TwoDigits(n) + bban)) <==> n == CheckNumber(country, bban))
  {
    var two := TwoDigits(n);
    var head := country + two;
    assert Alphanumeric(head + bban);
    FieldOnCleanInput(head + bban);
    CheckIsResidue(head, bban);
    NumberWithCheck(country, bban, n);
    CheckResidue(Number(bban + country) * 100, n);
  }

  lemma NumberWithCheck(country: string, bban: string, n: nat)
    requires Alphanumeric(country) && Alphanumeric(bban) && n < 100
    ensures Alphanumeric(bban + (country + TwoDigits(n))) && Alphanumeric(bban + country)
    ensures Number(bban + (country + TwoDigits(n))) == Number(bban + country) * 100 + n
  {
    hide Number, Scale, TwoDigits;
    TwoDigitsNumber(n);
    NumberOfConcat(bban, country);
    NumberOfConcat(bban + country, TwoDigits(n));
    assert bban + (country + TwoDigits(n)) == (bban + country) + TwoDigits(n);
  }

  lemma TwoDigitsNumber(n: nat)
    requires n < 100
    ensures Alphanumeric(TwoDigits(n)) && Number(TwoDigits(n)) == n && Scale(TwoDigits(n)) == 100
  {
    PairNumber(TwoDigits(n)[0], TwoDigits(n)[1]);
  }

  lemma CheckResidue(v: nat, n: nat)
    requires n < 100
    ensures (v + n) % 97 == 1 <==> n % 97 == (98 - v % 97) % 97
    ensures 2 <= n <= 98 ==> (n % 97 == (98 - v % 97) % 97 <==> n == 98 - v % 97)
  {
  }
}
