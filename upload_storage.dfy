/** The disk-storage configuration of the upload middleware: every uploaded
    file goes to one fixed directory, under the name
    `<millisecond timestamp>-<original file name>`. The clock reading
    (`Date.now()`) is a parameter. */
module UploadStorage {

  import opened Wrappers

  /** The part of an uploaded file the storage callbacks look at. */
  datatype UploadedFile = UploadedFile(originalname: string)

  /** A stored name taken apart again. */
  datatype StoredParts = StoredParts(timestamp: nat, originalname: string)

  const UploadDirectory := "uploads/"

  predicate IsDigit(c: char) {
    '0' <= c <= '9'
  }

  predicate AllDigits(s: string) {
    forall i | 0 <= i < |s| :: IsDigit(s[i])
  }

  /** A decimal numeral as JavaScript prints a non-negative integer: at least
      one digit, and no leading zero unless the numeral is "0" itself. */
  predicate IsCanonicalDecimal(s: string) {
    s != [] && AllDigits(s) && (s[0] == '0' ==> |s| == 1)
  }

  function DigitChar(d: nat): (c: char)
    requires d < 10
  {
    ('0' as int + d) as char
  }

  function DigitValue(c: char): nat
    requires IsDigit(c)
  {
    c as int - '0' as int
  }

  /** The decimal rendering of a timestamp, as `Date.now() + '-'` converts
      the number to text. */
  function DecimalString(n: nat): (s: string)
    ensures IsCanonicalDecimal(s)
    ensures s[0] == '0' <==> n == 0
    decreases n
  {
    if n < 10 then [DigitChar(n)] else DecimalString(n / 10) + [DigitChar(n % 10)]
  }

  /** The number a string of digits denotes. */
  function DigitsValue(s: string): nat
    requires AllDigits(s)
  {
    if s == [] then 0 else DigitsValue(s[..|s| - 1]) * 10 + DigitValue(s[|s| - 1])
  }

  function ParseDecimal(s: string): Option<nat> {
    if IsCanonicalDecimal(s) then Some(DigitsValue(s)) else None
  }

  /** Index of the first '-' in `s`, or `|s|` when there is none. */
  function FirstDash(s: string): (i: nat)
    ensures i <= |s|
    ensures i < |s| ==> s[i] == '-'
    ensures forall j | 0 <= j < i :: s[j] != '-'
  {
    if s == [] || s[0] == '-' then 0 else 1 + FirstDash(s[1..])
  }

  /** The name a file is stored under when it arrives at time `t`. */
  function StoredName(t: nat, orig: string): (name: string)
    ensures |name| >= |orig| + 2
    ensures name[|name| - |orig|..] == orig
    ensures name[|name| - |orig| - 1] == '-'
    ensures IsCanonicalDecimal(name[..|name| - |orig| - 1])
    ensures DigitsValue(name[..|name| - |orig| - 1]) == t
  {
    var digits := DecimalString(t);
    ValueOfDecimalString(t);
    assert (digits + "-" + orig)[..|digits|] == digits;
    digits + "-" + orig
  }

  /** Takes a stored name apart at its first '-': the text before it must be
      a canonical decimal numeral, the text after it is the original name. */
  function SplitStoredName(name: string): Option<StoredParts> {
    var i := FirstDash(name);
    if i == |name| then None
    else
      match ParseDecimal(name[..i])
      case None => None
      case Some(t) => Some(StoredParts(t, name[i + 1..]))
  }

  /** The `destination` callback: the same directory for every request and
      every file. */
  function Destination<Req>(req: Req, file: UploadedFile): (dir: string)
    ensures dir == UploadDirectory
  {
    UploadDirectory
  }

  /** The `filename` callback, with the clock reading `now` as a parameter.
      The name it produces can always be taken apart into exactly the clock
      reading and the original name. */
  function Filename<Req>(req: Req, file: UploadedFile, now: nat): (name: string)
    ensures SplitStoredName(name) == Some(StoredParts(now, file.originalname))
  {
    SplitRecoversParts(now, file.originalname);
    StoredName(now, file.originalname)
  }

  lemma {:induction false} ValueOfDecimalString(n: nat)
    ensures DigitsValue(DecimalString(n)) == n
    decreases n
  {
    var s := DecimalString(n);
    if n < 10 {
      assert s[..|s| - 1] == [];
    } else {
      assert s[..|s| - 1] == DecimalString(n / 10);
      ValueOfDecimalString(n / 10);
    }
  }

  lemma {:induction false} LeadingDigitMakesPositive(s: string)
    requires AllDigits(s) && s != [] && s[0] != '0'
    ensures DigitsValue(s) > 0
    decreases |s|
  {
    if |s| > 1 {
      LeadingDigitMakesPositive(s[..|s| - 1]);
    } else {
      assert s[..|s| - 1] == [];
    }
  }

  /** Every canonical numeral is the rendering of the number it denotes. */
  lemma {:induction false} DecimalStringOfValue(s: string)
    requires IsCanonicalDecimal(s)
    ensures DecimalString(DigitsValue(s)) == s
    decreases |s|
  {
    var p, c := s[..|s| - 1], s[|s| - 1];
    if |s| == 1 {
      assert p == [];
    } else {
      LeadingDigitMakesPositive(p);
      DecimalStringOfValue(p);
      var v := DigitsValue(s);
      assert v == DigitsValue(p) * 10 + DigitValue(c);
      assert v / 10 == DigitsValue(p) && v % 10 == DigitValue(c);
      assert s == p + [c];
    }
  }

  /** Round trip: splitting a stored name gives back the clock reading and
      the original name, whatever characters (including '-') the original
      name holds. */
  lemma SplitRecoversParts(t: nat, orig: string)
    ensures SplitStoredName(StoredName(t, orig)) == Some(StoredParts(t, orig))
  {
  }

  /** The other round trip: every name the split accepts is the stored name
      of the parts it yields, so the split is exactly the inverse of
      `StoredName`. */
  lemma StoredNameOfParts(name: string)
    requires SplitStoredName(name).Some?
    ensures StoredName(SplitStoredName(name).value.timestamp,
                       SplitStoredName(name).value.originalname) == name
  {
    var i := FirstDash(name);
    var prefix := name[..i];
    DecimalStringOfValue(prefix);
    assert name == prefix + "-" + name[i + 1..];
  }

  /** Two uploads collide on disk only if they carry the same clock reading
      and the same original name. */
  lemma StoredNameInjective(t1: nat, orig1: string, t2: nat, orig2: string)
    ensures StoredName(t1, orig1) == StoredName(t2, orig2) <==> t1 == t2 && orig1 == orig2
  {
  }

  /** A rendered timestamp contains no '-'. */
  lemma DecimalStringHasNoDash(n: nat)
    ensures '-' !in DecimalString(n)
  {
  }

}
