/**
 The `variantQuery` field of the HTML search form: a compact locus such as
 `7:140453136 A>T`, accepted case-insensitively by the anchored pattern

   (X|Y|MT|[1-9]|1[0-9]|2[0-2]) \s* : \s* (\d+) \s+ ([ATCGN]+) \s* > \s*
   (DEL:ME|INS:ME|DUP:TANDEM|DUP|DEL|INS|INV|CNV|SNP|MNP|[ATCGN]+)

 The grammar is stated declaratively (`Matches`: some decomposition of the
 string into the pattern's pieces exists) and a hand-written scanner is proved
 to accept exactly those strings and to return exactly the four captured
 groups, with reference and alternate upper-cased as the handler does.
 Character classes are ASCII: `\s` is space or one of the control characters
 9 to 13, `\d` is `0`..`9`, and ignoring case folds `a`..`z` onto `A`..`Z`.
 */
module VariantLocus {
  import opened Wrappers

  // ---------------------------------------------------------------------------
  // Character classes
  // ---------------------------------------------------------------------------

  /** `\s`: space, tab, line feed, vertical tab, form feed, carriage return */
  predicate IsSpace(c: char) {
    c == ' ' || ('\t' <= c <= '\r')
  }

  /** `\d` */
  predicate IsDigit(c: char) {
    '0' <= c <= '9'
  }

  predicate IsLower(c: char) {
    'a' <= c <= 'z'
  }

  predicate IsLetter(c: char) {
    'A' <= c <= 'Z' || IsLower(c)
  }

  predicate IsAlnum(c: char) {
    IsLetter(c) || IsDigit(c)
  }

  /** Python's `str.upper` restricted to ASCII */
  function UpperChar(c: char): char {
    if IsLower(c) then (c as int - 32) as char else c
  }

  function Upper(s: string): (u: string)
    ensures |u| == |s|
    ensures forall i :: 0 <= i < |s| ==> u[i] == UpperChar(s[i])
  {
    seq(|s|, i requires 0 <= i < |s| => UpperChar(s[i]))
  }

  /** `[ATCGN]` under case-insensitive matching */
  predicate IsBaseChar(c: char) {
    UpperChar(c) in "ACGTN"
  }

  predicate IsSpaces(s: string) {
    forall i :: 0 <= i < |s| ==> IsSpace(s[i])
  }

  /** `\d+` */
  predicate IsDigits(s: string) {
    |s| > 0 && forall i :: 0 <= i < |s| ==> IsDigit(s[i])
  }

  /** `[ATCGN]+`, either case */
  predicate IsBases(s: string) {
    |s| > 0 && forall i :: 0 <= i < |s| ==> IsBaseChar(s[i])
  }

  /** A non-empty string over the upper-case alphabet A, C, G, T, N */
  predicate IsUpperBases(s: string) {
    |s| > 0 && forall i :: 0 <= i < |s| ==> s[i] in "ACGTN"
  }

  // ---------------------------------------------------------------------------
  // Tokens
  // ---------------------------------------------------------------------------

  /** The symbolic alternates, in the order the pattern lists them */
  const SymbolicAlleles: seq<string> :=
    ["DEL:ME", "INS:ME", "DUP:TANDEM", "DUP", "DEL", "INS", "INV", "CNV", "SNP", "MNP"]

  /** `X|Y|MT|[1-9]|1[0-9]|2[0-2]`, ignoring case */
  predicate IsChromToken(c: string) {
    var u := Upper(c);
    || u == "X" || u == "Y" || u == "MT"
    || (|c| == 1 && '1' <= c[0] <= '9')
    || (|c| == 2 && c[0] == '1' && IsDigit(c[1]))
    || (|c| == 2 && c[0] == '2' && '0' <= c[1] <= '2')
  }

  /** The alternate group, ignoring case */
  predicate IsAltToken(a: string) {
    Upper(a) in SymbolicAlleles || IsBases(a)
  }

  // ---------------------------------------------------------------------------
  // The grammar
  // ---------------------------------------------------------------------------

  /** A decomposition of a string into the pieces of the pattern: the four
      captured groups and the five whitespace runs around them. */
  datatype Split = Split(
    chrom: string, ws1: string, ws2: string, digits: string, ws3: string,
    ref: string, ws4: string, ws5: string, alt: string)

  predicate WellFormed(sp: Split) {
    && IsChromToken(sp.chrom)
    && IsSpaces(sp.ws1) && IsSpaces(sp.ws2)
    && IsDigits(sp.digits)
    && IsSpaces(sp.ws3) && |sp.ws3| > 0
    && IsBases(sp.ref)
    && IsSpaces(sp.ws4) && IsSpaces(sp.ws5)
    && IsAltToken(sp.alt)
  }

  /** The string a decomposition spells: chrom ws1 ':' ws2 digits ws3 ref ws4 '>' ws5 alt */
  function Join(sp: Split): string {
    sp.chrom + (sp.ws1 + (":" + (sp.ws2 + (sp.digits + (sp.ws3 +
      (sp.ref + (sp.ws4 + (">" + (sp.ws5 + sp.alt)))))))))
  }

  /** The whole string matches the anchored pattern */
  ghost predicate Matches(s: string) {
    exists sp :: WellFormed(sp) && Join(sp) == s
  }

  // ---------------------------------------------------------------------------
  // The parsed locus
  // ---------------------------------------------------------------------------

  datatype Locus = Locus(chromosome: string, position: nat, reference: string, alternate: string)

  /** What the handler makes of a locus's fields: a chromosome token exactly as
      typed, a reference over upper-case bases, and an alternate that is an
      upper-case symbolic allele or upper-case bases. */
  predicate ValidLocus(l: Locus) {
    && IsChromToken(l.chromosome)
    && IsUpperBases(l.reference)
    && (l.alternate in SymbolicAlleles || IsUpperBases(l.alternate))
  }

  function DigitValue(c: char): nat
    requires IsDigit(c)
  {
    c as int - '0' as int
  }

  /** Python's `int` on a run of ASCII digits */
  function DigitsValue(d: string): nat
    requires forall i :: 0 <= i < |d| ==> IsDigit(d[i])
  {
    if d == [] then 0 else 10 * DigitsValue(d[..|d| - 1]) + DigitValue(d[|d| - 1])
  }

  /** The locus the handler builds from the four groups of a match */
  function Captured(sp: Split): Locus
    requires WellFormed(sp)
  {
    Locus(sp.chrom, DigitsValue(sp.digits), Upper(sp.ref), Upper(sp.alt))
  }

  // ---------------------------------------------------------------------------
  // The scanner
  // ---------------------------------------------------------------------------

  /** Length of the longest prefix of `s` whose characters all satisfy `p` */
  function Span(s: string, p: char -> bool): (n: nat)
    ensures n <= |s|
    ensures forall i :: 0 <= i < n ==> p(s[i])
    ensures n < |s| ==> !p(s[n])
  {
    if s == [] || !p(s[0]) then 0 else 1 + Span(s[1..], p)
  }

  /** Splits `s` into its longest `p`-prefix and the rest */
  function Cut(s: string, p: char -> bool): (r: (string, string))
    ensures r.0 + r.1 == s
    ensures forall i :: 0 <= i < |r.0| ==> p(r.0[i])
    ensures r.1 == [] || !p(r.1[0])
  {
    var n := Span(s, p);
    (s[..n], s[n..])
  }

  /** A cut is determined by where the `p`-run ends: if `x` is all `p` and `y`
      does not start with a `p` character, cutting `x + y` yields exactly `x`
      and `y`. */
  lemma CutConcat(x: string, y: string, p: char -> bool)
    requires forall i :: 0 <= i < |x| ==> p(x[i])
    requires y == [] || !p(y[0])
    ensures Cut(x + y, p) == (x, y)
  {
    assert forall i :: 0 <= i < |x| ==> (x + y)[i] == x[i];
    assert y != [] ==> (x + y)[|x|] == y[0];
    assert Span(x + y, p) == |x|;
    assert (x + y)[..|x|] == x;
    assert (x + y)[|x|..] == y;
  }

  lemma HeadTail(t: string)
    requires t != []
    ensures t == [t[0]] + t[1..]
  {
  }

  /** The part after the reference: `\s* > \s* (alt)` up to the end */
  function ScanAllele(t: string): (r: Option<(string, string, string)>)
    ensures r.Some? ==> && IsSpaces(r.value.0) && IsSpaces(r.value.1) && IsAltToken(r.value.2)
                        && r.value.0 + (">" + (r.value.1 + r.value.2)) == t
  {
    var (ws4, t1) := Cut(t, IsSpace);
    if t1 == [] || t1[0] != '>' then None
    else
      var (ws5, alt) := Cut(t1[1..], IsSpace);
      if !IsAltToken(alt) then None
      else
        HeadTail(t1);
        Some((ws4, ws5, alt))
  }

  /** The part after the colon: `\s* (\d+) \s+ ([ATCGN]+)` and the allele part */
  function ScanPosition(t: string): (r: Option<(string, string, string, string, (string, string, string))>)
    ensures r.Some? ==>
      var (ws2, digits, ws3, ref, (ws4, ws5, alt)) := r.value;
      && IsSpaces(ws2) && IsDigits(digits) && IsSpaces(ws3) && |ws3| > 0 && IsBases(ref)
      && IsSpaces(ws4) && IsSpaces(ws5) && IsAltToken(alt)
      && ws2 + (digits + (ws3 + (ref + (ws4 + (">" + (ws5 + alt)))))) == t
  {
    var (ws2, t1) := Cut(t, IsSpace);
    var (digits, t2) := Cut(t1, IsDigit);
    var (ws3, t3) := Cut(t2, IsSpace);
    var (ref, t4) := Cut(t3, IsBaseChar);
    if digits == [] || ws3 == [] || ref == [] then None
    else
      match ScanAllele(t4)
      case None => None
      case Some(tail) => Some((ws2, digits, ws3, ref, tail))
  }

  /** Reads a string left to right the way the pattern does. */
  function Scan(s: string): (r: Option<Split>)
    ensures r.Some? ==> WellFormed(r.value) && Join(r.value) == s
  {
    var (chrom, t1) := Cut(s, IsAlnum);
    var (ws1, t2) := Cut(t1, IsSpace);
    if !IsChromToken(chrom) || t2 == [] || t2[0] != ':' then None
    else
      match ScanPosition(t2[1..])
      case None => None
      case Some(pos) =>
        var (ws2, digits, ws3, ref, (ws4, ws5, alt)) := pos;
        var sp := Split(chrom, ws1, ws2, digits, ws3, ref, ws4, ws5, alt);
        HeadTail(t2);
        assert Join(sp) == s;
        Some(sp)
  }

  /** The locus parse of lines 143-151: the match of the pattern, then the four
      groups with `int` applied to the position and `upper` to the alleles. */
  function ParseLocus(s: string): (r: Option<Locus>)
    ensures r.Some? ==> ValidLocus(r.value)
    // the chromosome is the input's own leading characters, not upper-cased
    ensures r.Some? ==> r.value.chromosome <= s
  {
    match Scan(s)
    case None => None
    case Some(sp) =>
      CapturedValid(sp);
      Some(Captured(sp))
  }

  // ---------------------------------------------------------------------------
  // Facts about characters and tokens
  // ---------------------------------------------------------------------------

  lemma UpperCharLetter(c: char)
    ensures IsLetter(UpperChar(c)) <==> IsLetter(c)
    ensures !IsLower(UpperChar(c))
    ensures !IsLower(c) ==> UpperChar(c) == c
  {
  }

  lemma ChromIsAlnum(c: string)
    requires IsChromToken(c)
    ensures forall i :: 0 <= i < |c| ==> IsAlnum(c[i])
  {
    forall i | 0 <= i < |c|
      ensures IsAlnum(c[i])
    {
      UpperCharLetter(c[i]);
      assert Upper(c)[i] == UpperChar(c[i]);
    }
  }

  /** A base character is never whitespace, ':' or '>' */
  lemma BaseCharIsLetter(c: char)
    requires IsBaseChar(c)
    ensures IsLetter(c)
  {
    UpperCharLetter(c);
  }

  lemma AltStartsWithLetter(a: string)
    requires IsAltToken(a)
    ensures |a| > 0 && IsLetter(a[0])
  {
    if IsBases(a) {
      BaseCharIsLetter(a[0]);
    } else {
      var u := Upper(a);
      assert u in SymbolicAlleles;
      assert |u| > 0 && IsLetter(u[0]);
      UpperCharLetter(a[0]);
    }
  }

  lemma UpperOfUpper(s: string)
    requires forall i :: 0 <= i < |s| ==> !IsLower(s[i])
    ensures Upper(s) == s
  {
    forall i | 0 <= i < |s|
      ensures Upper(s)[i] == s[i]
    {
      UpperCharLetter(s[i]);
    }
  }

  lemma SymbolicAllelesAreUpper(t: string)
    requires t in SymbolicAlleles
    ensures forall i :: 0 <= i < |t| ==> !IsLower(t[i])
  {
  }

  lemma CapturedValid(sp: Split)
    requires WellFormed(sp)
    ensures ValidLocus(Captured(sp))
  {
    var u := Upper(sp.alt);
    if !(u in SymbolicAlleles) {
      assert IsBases(sp.alt);
    }
  }

  // ---------------------------------------------------------------------------
  // The scanner reads back every decomposition
  // ---------------------------------------------------------------------------

  lemma ScanAlleleJoin(ws4: string, ws5: string, alt: string)
    requires IsSpaces(ws4) && IsSpaces(ws5) && IsAltToken(alt)
    ensures ScanAllele(ws4 + (">" + (ws5 + alt))) == Some((ws4, ws5, alt))
  {
    var t1 := ">" + (ws5 + alt);
    CutConcat(ws4, t1, IsSpace);
    assert t1[1..] == ws5 + alt;
    AltStartsWithLetter(alt);
    CutConcat(ws5, alt, IsSpace);
  }

  /** The four cuts that read the position part of a decomposition's string */
  lemma PositionCuts(ws2: string, digits: string, ws3: string, ref: string, t4: string)
    requires IsSpaces(ws2) && IsDigits(digits) && IsSpaces(ws3) && |ws3| > 0 && IsBases(ref)
    requires t4 == [] || t4[0] == '>' || IsSpace(t4[0])
    ensures Cut(ws2 + (digits + (ws3 + (ref + t4))), IsSpace) == (ws2, digits + (ws3 + (ref + t4)))
    ensures Cut(digits + (ws3 + (ref + t4)), IsDigit) == (digits, ws3 + (ref + t4))
    ensures Cut(ws3 + (ref + t4), IsSpace) == (ws3, ref + t4)
    ensures Cut(ref + t4, IsBaseChar) == (ref, t4)
  {
    CutConcat(ws2, digits + (ws3 + (ref + t4)), IsSpace);
    CutConcat(digits, ws3 + (ref + t4), IsDigit);
    BaseCharIsLetter(ref[0]);
    CutConcat(ws3, ref + t4, IsSpace);
    CutConcat(ref, t4, IsBaseChar);
  }

  lemma ScanPositionJoin(ws2: string, digits: string, ws3: string, ref: string,
                         ws4: string, ws5: string, alt: string)
    requires IsSpaces(ws2) && IsDigits(digits) && IsSpaces(ws3) && |ws3| > 0 && IsBases(ref)
    requires IsSpaces(ws4) && IsSpaces(ws5) && IsAltToken(alt)
    ensures ScanPosition(ws2 + (digits + (ws3 + (ref + (ws4 + (">" + (ws5 + alt)))))))
         == Some((ws2, digits, ws3, ref, (ws4, ws5, alt)))
  {
    var t4 := ws4 + (">" + (ws5 + alt));
    assert t4[0] == if ws4 == [] then '>' else ws4[0];
    PositionCuts(ws2, digits, ws3, ref, t4);
    ScanAlleleJoin(ws4, ws5, alt);
  }

  /** Scanning the string a well-formed decomposition spells returns that very
      decomposition: the pattern's pieces are determined by the string. */
  lemma ScanJoin(sp: Split)
    requires WellFormed(sp)
    ensures Scan(Join(sp)) == Some(sp)
  {
    var t3 := sp.ws2 + (sp.digits + (sp.ws3 + (sp.ref + (sp.ws4 + (">" + (sp.ws5 + sp.alt))))));
    var t2 := ":" + t3;
    var t1 := sp.ws1 + t2;
    ChromIsAlnum(sp.chrom);
    assert t1[0] == if sp.ws1 == [] then ':' else sp.ws1[0];
    CutConcat(sp.chrom, t1, IsAlnum);
    CutConcat(sp.ws1, t2, IsSpace);
    assert t2[1..] == t3;
    ScanPositionJoin(sp.ws2, sp.digits, sp.ws3, sp.ref, sp.ws4, sp.ws5, sp.alt);
  }

  /** The parser succeeds exactly on the strings the anchored pattern matches. */
  lemma ParseMatches(s: string)
    ensures ParseLocus(s).Some? <==> Matches(s)
  {
    if Matches(s) {
      var sp :| WellFormed(sp) && Join(sp) == s;
      ScanJoin(sp);
    }
  }

  /** On a match, the parsed locus is the four captured groups: the chromosome
      exactly as typed, the digit run's value, and the two alleles upper-cased. */
  lemma ParseCaptures(sp: Split)
    requires WellFormed(sp)
    ensures ParseLocus(Join(sp)) == Some(Captured(sp))
  {
    ScanJoin(sp);
  }

  // ---------------------------------------------------------------------------
  // Canonical rendering
  // ---------------------------------------------------------------------------

  function DigitChar(d: nat): (c: char)
    requires d < 10
    ensures IsDigit(c) && DigitValue(c) == d
  {
    ('0' as int + d) as char
  }

  /** Decimal digits of `n`, without leading zeros */
  function NatToDigits(n: nat): (d: string)
    ensures IsDigits(d)
    ensures DigitsValue(d) == n
  {
    if n < 10 then [DigitChar(n)]
    else
      var d := NatToDigits(n / 10) + [DigitChar(n % 10)];
      assert d[..|d| - 1] == NatToDigits(n / 10);
      d
  }

  /** The decomposition of the canonical spelling `chrom:pos ref>alt` */
  function Canonical(l: Locus): Split {
    Split(l.chromosome, "", "", NatToDigits(l.position), " ", l.reference, "", "", l.alternate)
  }

  /** A locus written back as a `variantQuery` string */
  function Render(l: Locus): string {
    Join(Canonical(l))
  }

  lemma UpperBasesAreUpper(s: string)
    requires IsUpperBases(s)
    ensures IsBases(s) && Upper(s) == s
  {
    forall i | 0 <= i < |s|
      ensures !IsLower(s[i]) && IsBaseChar(s[i])
    {
      UpperCharLetter(s[i]);
    }
    UpperOfUpper(s);
  }

  /** Parsing the rendering of a valid locus gives the locus back. */
  lemma RenderRoundTrip(l: Locus)
    requires ValidLocus(l)
    ensures ParseLocus(Render(l)) == Some(l)
  {
    UpperBasesAreUpper(l.reference);
    if l.alternate in SymbolicAlleles {
      SymbolicAllelesAreUpper(l.alternate);
      UpperOfUpper(l.alternate);
    } else {
      UpperBasesAreUpper(l.alternate);
    }
    var sp := Canonical(l);
    assert IsSpaces(sp.ws3);
    assert WellFormed(sp);
    ParseCaptures(sp);
  }

  /** Re-parsing the canonical spelling of a parse yields the same four fields. */
  lemma ParseIdempotent(s: string)
    ensures ParseLocus(s).Some? ==> ParseLocus(Render(ParseLocus(s).value)) == ParseLocus(s)
  {
    if ParseLocus(s).Some? {
      RenderRoundTrip(ParseLocus(s).value);
    }
  }
}
