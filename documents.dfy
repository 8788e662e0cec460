/**
 * CPF and CNPJ document numbers as the three registration forms handle them
 * (`NewTenantForm.tsx`, `TenantRegistration.tsx`, `LicenseForm.tsx`, which
 * repeat the same code): the 11/14-digit rule and the input mask.
 *
 * The mask is a chain of `String.prototype.replace` calls with non-global
 * regular expressions. Each is modelled by what the regular expression
 * engine does: find the leftmost position where the pattern matches, and
 * rewrite only that match.
 */
module Documents {
  import opened Basics
  import opened Text

  datatype DocumentType = Cpf | Cnpj

  /** Digits in a complete document: 11 for a CPF, 14 for a CNPJ. */
  function Length(t: DocumentType): nat
  {
    if t == Cpf then 11 else 14
  }

  /** The document's digits are exactly as many as its type needs. */
  predicate HasLength(t: DocumentType, doc: string)
  {
    |OnlyDigits(doc)| == Length(t)
  }

  const CPF_INVALID: string := "CPF inválido"
  const CNPJ_INVALID: string := "CNPJ inválido"

  /**
   * The document check of the tenant forms: only a non-empty document is
   * checked, and it needs the type's digit count.
   */
  function DocumentError(t: DocumentType, doc: string): (e: Option<string>)
    ensures e.None? <==> doc == [] || HasLength(t, doc)
    ensures e.Some? ==> e.value == if t == Cpf then CPF_INVALID else CNPJ_INVALID
  {
    if doc != [] && !HasLength(t, doc) then Some(if t == Cpf then CPF_INVALID else CNPJ_INVALID) else None
  }

  /** A full mask always passes the check. */
  lemma FullMaskPasses(t: DocumentType, d: string)
    requires AllDigits(d) && |d| == Length(t)
    ensures DocumentError(t, Mask(t, d)).None?
  {
    MaskKeepsDigits(t, d);
  }

  /** `s[i..i + w]` exists and is all digits: `\d{w}` matches at `i`. */
  predicate DigitRun(s: string, i: nat, w: nat)
  {
    i + w <= |s| && AllDigits(s[i..i + w])
  }

  /** The leftmost position at or after `from` where `\d{w}` matches. */
  function FindRun(s: string, w: nat, from: nat): (r: Option<nat>)
    ensures r.Some? ==> from <= r.value && DigitRun(s, r.value, w)
    ensures r.Some? ==> forall j :: from <= j < r.value ==> !DigitRun(s, j, w)
    ensures r.None? ==> forall j :: from <= j ==> !DigitRun(s, j, w)
    decreases |s| - from
  {
    if from + w > |s| then None
    else if DigitRun(s, from, w) then Some(from)
    else FindRun(s, w, from + 1)
  }

  /** `s.replace(/(\d{k})(\d)/, '$1' + sep + '$2')`: `sep` goes after the first run of k digits followed by a digit. */
  function SeparateFirstRun(s: string, k: nat, sep: char): (r: string)
    requires !IsDigit(sep)
    ensures OnlyDigits(r) == OnlyDigits(s)
  {
    match FindRun(s, k + 1, 0)
    case None => s
    case Some(i) =>
      InsertKeepsDigits(s, i + k, sep);
      s[..i + k] + [sep] + s[i + k..]
  }

  /** `s.replace(/(\d{k})(\d{1,2})$/, '$1-$2')`: a hyphen before the last one or two digits. */
  function HyphenateEnd(s: string, k: nat): (r: string)
    ensures OnlyDigits(r) == OnlyDigits(s)
  {
    if |s| >= k + 2 && DigitRun(s, |s| - k - 2, k + 2) then
      InsertKeepsDigits(s, |s| - 2, '-');
      s[..|s| - 2] + "-" + s[|s| - 2..]
    else if |s| >= k + 1 && DigitRun(s, |s| - k - 1, k + 1) then
      InsertKeepsDigits(s, |s| - 1, '-');
      s[..|s| - 1] + "-" + s[|s| - 1..]
    else s
  }

  /** A lone non-digit has no digits. */
  lemma NonDigitDropped(c: char)
    requires !IsDigit(c)
    ensures OnlyDigits([c]) == []
  {
    assert [c][1..] == [];
  }

  /** Inserting a non-digit anywhere leaves the digits as they were. */
  lemma InsertKeepsDigits(s: string, j: nat, c: char)
    requires j <= |s| && !IsDigit(c)
    ensures OnlyDigits(s[..j] + [c] + s[j..]) == OnlyDigits(s)
  {
    var a, b := s[..j], s[j..];
    assert s == a + b;
    NonDigitDropped(c);
    OnlyDigitsAppend(a + [c], b);
    OnlyDigitsAppend(a, [c]);
    OnlyDigitsAppend(a, b);
  }

  /** The CPF mask: `ddd.ddd.ddd-dd` as far as the digits go. */
  function CpfMask(d: string): string
  {
    HyphenateEnd(SeparateFirstRun(SeparateFirstRun(d, 3, '.'), 3, '.'), 3)
  }

  /** The CNPJ mask: `dd.ddd.ddd/dddd-dd` as far as the digits go. */
  function CnpjMask(d: string): string
  {
    HyphenateEnd(SeparateFirstRun(SeparateFirstRun(SeparateFirstRun(d, 2, '.'), 3, '.'), 3, '/'), 4)
  }

  function Mask(t: DocumentType, d: string): (r: string)
    ensures OnlyDigits(r) == OnlyDigits(d)
  {
    if t == Cpf then CpfMask(d) else CnpjMask(d)
  }

  /** The mask only adds separators: taking its digits gives back the typed digits. */
  lemma MaskKeepsDigits(t: DocumentType, d: string)
    requires AllDigits(d)
    ensures OnlyDigits(Mask(t, d)) == d
  {
    OnlyDigitsOfDigits(d);
  }

  /**
   * The document field's `onChange`: the digits of what is in the field
   * now, masked, or no change at all when there are more digits than the
   * document type allows.
   */
  function OnDocumentInput(t: DocumentType, current: string, typed: string): (r: string)
    ensures |OnlyDigits(typed)| > Length(t) ==> r == current
    ensures |OnlyDigits(typed)| <= Length(t) ==> r == Mask(t, OnlyDigits(typed)) && OnlyDigits(r) == OnlyDigits(typed)
  {
    var numbers := OnlyDigits(typed);
    OnlyDigitsOfDigits(numbers);
    if |numbers| <= Length(t) then Mask(t, numbers) else current
  }

  /**
   * Typing one more digit at the end of a masked field gives the mask of
   * the longer digit string, up to the document's length; one digit more
   * than that is ignored.
   */
  lemma {:induction false} TypeOneDigit(t: DocumentType, d: string, c: char)
    requires AllDigits(d) && IsDigit(c) && |d| <= Length(t)
    ensures |d| < Length(t) ==> OnDocumentInput(t, Mask(t, d), Mask(t, d) + [c]) == Mask(t, d + [c])
    ensures |d| == Length(t) ==> OnDocumentInput(t, Mask(t, d), Mask(t, d) + [c]) == Mask(t, d)
  {
    MaskKeepsDigits(t, d);
    OnlyDigitsAppend(Mask(t, d), [c]);
    assert OnlyDigits([c]) == [c];
  }

  /** A run that matches at `i` and nowhere before it is the one the search finds. */
  lemma FindRunIs(s: string, w: nat, i: nat)
    requires DigitRun(s, i, w)
    requires forall j :: 0 <= j < i ==> !DigitRun(s, j, w)
    ensures FindRun(s, w, 0) == Some(i)
  {
  }

  /** A window that covers a non-digit is not a run of digits. */
  lemma Blocked(s: string, p: nat, j: nat, w: nat)
    requires p < |s| && !IsDigit(s[p]) && j <= p < j + w
    ensures !DigitRun(s, j, w)
  {
    if j + w <= |s| {
      assert s[j..j + w][p - j] == s[p];
    }
  }

  /** Fourteen digits are shown as `dd.ddd.ddd/dddd-dd`. */
  lemma {:induction false} CnpjMaskFull(d: string)
    requires AllDigits(d) && |d| == 14
    ensures CnpjMask(d) == d[..2] + "." + d[2..5] + "." + d[5..8] + "/" + d[8..12] + "-" + d[12..]
  {
    assert DigitRun(d, 0, 3) by { assert AllDigits(d[0..3]); }
    FindRunIs(d, 3, 0);
    var s1 := d[..2] + "." + d[2..];
    assert SeparateFirstRun(d, 2, '.') == s1;

    assert s1[3..7] == d[2..6];
    forall j | 0 <= j < 3 ensures !DigitRun(s1, j, 4) { Blocked(s1, 2, j, 4); }
    FindRunIs(s1, 4, 3);
    var s2 := d[..2] + "." + d[2..5] + "." + d[5..];
    assert s1[..6] + "." + s1[6..] == s2;

    assert s2[7..11] == d[5..9];
    forall j | 0 <= j < 7 ensures !DigitRun(s2, j, 4) {
      if j < 3 { Blocked(s2, 2, j, 4); } else { Blocked(s2, 6, j, 4); }
    }
    FindRunIs(s2, 4, 7);
    var s3 := d[..2] + "." + d[2..5] + "." + d[5..8] + "/" + d[8..];
    assert s2[..10] + "/" + s2[10..] == s3;

    assert |s3| == 17 && s3[11..17] == d[8..14];
    assert DigitRun(s3, 11, 6);
    assert s3[..15] + "-" + s3[15..] == d[..2] + "." + d[2..5] + "." + d[5..8] + "/" + d[8..12] + "-" + d[12..];
  }

  /** Eleven digits are shown as `ddd.ddd.ddd-dd`. */
  lemma {:induction false} CpfMaskFull(d: string)
    requires AllDigits(d) && |d| == 11
    ensures CpfMask(d) == d[..3] + "." + d[3..6] + "." + d[6..9] + "-" + d[9..]
  {
    assert DigitRun(d, 0, 4) by { assert AllDigits(d[0..4]); }
    FindRunIs(d, 4, 0);
    var s1 := d[..3] + "." + d[3..];
    assert SeparateFirstRun(d, 3, '.') == s1;

    assert s1[4..8] == d[3..7];
    forall j | 0 <= j < 4 ensures !DigitRun(s1, j, 4) { Blocked(s1, 3, j, 4); }
    FindRunIs(s1, 4, 4);
    var s2 := d[..3] + "." + d[3..6] + "." + d[6..];
    assert s1[..7] + "." + s1[7..] == s2;

    assert |s2| == 13 && s2[8..13] == d[6..11];
    assert DigitRun(s2, 8, 5);
    assert s2[..11] + "-" + s2[11..] == d[..3] + "." + d[3..6] + "." + d[6..9] + "-" + d[9..];
  }
}
