/** Names of database files: the printers, and the parser recovery and garbage collection use. */
module FileName {

  const MAX_UINT64: nat := 0xFFFF_FFFF_FFFF_FFFF

  datatype FileType = LogFile | DbLockFile | TableFile | DescriptorFile | CurrentFile | TempFile | InfoLogFile

  // ----- decimal numbers -----

  predicate IsDigit(c: char) {
    '0' <= c <= '9'
  }

  predicate AllDigits(s: string) {
    forall i :: 0 <= i < |s| ==> IsDigit(s[i])
  }

  function DigitValue(c: char): nat
    requires IsDigit(c)
  {
    c as nat - '0' as nat
  }

  function Value(s: string): nat
    requires AllDigits(s)
  {
    if s == [] then 0 else 10 * Value(s[..|s| - 1]) + DigitValue(s[|s| - 1])
  }

  function Digit(d: nat): char
    requires d < 10
  {
    ('0' as nat + d) as char
  }

  function Decimal(n: nat): string {
    if n < 10 then [Digit(n)] else Decimal(n / 10) + [Digit(n % 10)]
  }

  function Zeros(n: nat): string {
    seq(n, _ => '0')
  }

  /** `%06llu` */
  function Padded(n: nat): string {
    var d := Decimal(n);
    if |d| < 6 then Zeros(6 - |d|) + d else d
  }

  lemma {:induction false} DecimalIsRight(n: nat)
    ensures AllDigits(Decimal(n)) && Decimal(n) != [] && Value(Decimal(n)) == n
  {
    if n >= 10 {
      DecimalIsRight(n / 10);
      assert Decimal(n)[..|Decimal(n)| - 1] == Decimal(n / 10);
    } else {
      assert Decimal(n)[..0] == [];
    }
  }

  lemma {:induction false} LeadingZeros(k: nat, s: string)
    requires AllDigits(s)
    ensures AllDigits(Zeros(k) + s) && Value(Zeros(k) + s) == Value(s)
    decreases |s|, k
  {
    var z := Zeros(k) + s;
    if s == [] {
      assert z == Zeros(k);
      if k > 0 {
        assert z[..k - 1] == Zeros(k - 1) + [];
        LeadingZeros(k - 1, []);
      }
    } else {
      LeadingZeros(k, s[..|s| - 1]);
      assert z[..|z| - 1] == Zeros(k) + s[..|s| - 1];
    }
  }

  lemma PaddedIsRight(n: nat)
    ensures AllDigits(Padded(n)) && Padded(n) != [] && Value(Padded(n)) == n
  {
    DecimalIsRight(n);
    if |Decimal(n)| < 6 {
      LeadingZeros(6 - |Decimal(n)|, Decimal(n));
    }
  }

  lemma {:induction false} ValueGrows(s: string, i: nat)
    requires AllDigits(s) && i <= |s|
    ensures Value(s[..i]) <= Value(s)
  {
    if i < |s| {
      ValueGrows(s[..|s| - 1], i);
      assert s[..|s| - 1][..i] == s[..i];
    } else {
      assert s[..i] == s;
    }
  }

  // ----- the printers -----

  function MakeFileName(dbname: string, number: nat, suffix: string): string {
    dbname + "/" + Padded(number) + "." + suffix
  }

  function LogFileName(dbname: string, number: nat): string {
    MakeFileName(dbname, number, "log")
  }

  function TableFileName(dbname: string, number: nat): string {
    MakeFileName(dbname, number, "ldb")
  }

  function SSTTableFileName(dbname: string, number: nat): string {
    MakeFileName(dbname, number, "sst")
  }

  function TempFileName(dbname: string, number: nat): string {
    MakeFileName(dbname, number, "dbtmp")
  }

  function DescriptorFileName(dbname: string, number: nat): string {
    dbname + "/MANIFEST-" + Padded(number)
  }

  // ----- what a name means -----

  function TypeOfSuffix(suffix: string): seq<FileType> {
    if suffix == ".log" then [LogFile]
    else if suffix == ".sst" || suffix == ".ldb" then [TableFile]
    else if suffix == ".dbtmp" then [TempFile]
    else []
  }

  /** `name` is digits for `number` followed by `suffix`. */
  ghost predicate IsNumbered(name: string, number: nat, suffix: string) {
    exists k: nat :: Splits(name, k, number, suffix)
  }

  predicate Splits(name: string, k: nat, number: nat, suffix: string) {
    && 0 < k <= |name| && AllDigits(name[..k]) && number == Value(name[..k]) <= MAX_UINT64
    && suffix == name[k..]
  }

  /** The names this database owns, declared without reference to how they are parsed. */
  ghost predicate Names(name: string, number: nat, t: FileType) {
    match t
    case CurrentFile => name == "CURRENT" && number == 0
    case DbLockFile => name == "LOCK" && number == 0
    case InfoLogFile => (name == "LOG" || name == "LOG.old") && number == 0
    case DescriptorFile => |name| >= 9 && name[..9] == "MANIFEST-" && IsNumbered(name[9..], number, "")
    case LogFile => IsNumbered(name, number, ".log")
    case TableFile => IsNumbered(name, number, ".sst") || IsNumbered(name, number, ".ldb")
    case TempFile => IsNumbered(name, number, ".dbtmp")
  }

  // ----- the parser -----

  /** Takes the digits off the front of `input`, unless there are none or they overflow. */
  method ConsumeDecimalNumber(input: string) returns (ok: bool, number: nat, rest: string)
    ensures ok ==> exists k: nat :: Splits(input, k, number, rest) && (rest == [] || !IsDigit(rest[0]))
    ensures !ok ==> forall k: nat, n: nat, suffix: string :: Splits(input, k, n, suffix) ==>
                      suffix != [] && IsDigit(suffix[0])
  {
    var value, i := 0, 0;
    ok, number, rest := false, 0, input;
    while i < |input| && IsDigit(input[i])
      invariant 0 <= i <= |input| && AllDigits(input[..i])
      invariant value == Value(input[..i]) <= MAX_UINT64
      invariant !ok
    {
      var ch := input[i];
      assert input[..i + 1][..i] == input[..i];
      if value > MAX_UINT64 / 10 || (value == MAX_UINT64 / 10 && ch > '5') {
        OverflowStays(input, i + 1);
        return;
      }
      value := value * 10 + DigitValue(ch);
      i := i + 1;
    }
    if i != 0 {
      ok, number, rest := true, value, input[i..];
      assert Splits(input, i, number, rest);
    }
  }

  lemma OverflowStays(input: string, i: nat)
    requires i <= |input| && AllDigits(input[..i]) && Value(input[..i]) > MAX_UINT64
    ensures forall k: nat, n: nat, suffix: string :: Splits(input, k, n, suffix) ==> k < i
  {
    forall k: nat | i <= k <= |input| && AllDigits(input[..k]) ensures Value(input[..k]) > MAX_UINT64 {
      ValueGrows(input[..k], i);
      assert input[..k][..i] == input[..i];
    }
  }

  method ParseFileName(filename: string) returns (ok: bool, number: nat, t: FileType)
    ensures ok ==> Names(filename, number, t)
    ensures !ok ==> forall n: nat, u: FileType :: !Names(filename, n, u)
  {
    hide Splits, Value;
    ok, number, t := true, 0, CurrentFile;
    FirstLetters(filename);
    if filename == "CURRENT" {
      t := CurrentFile;
    } else if filename == "LOCK" {
      t := DbLockFile;
    } else if filename == "LOG" || filename == "LOG.old" {
      t := InfoLogFile;
    } else if "MANIFEST-" <= filename {
      var rest;
      ok, number, rest := ConsumeDecimalNumber(filename[9..]);
      if !ok || rest != [] {
        NoOtherSplit(filename[9..], number, rest, ok);
        ok := false;
        return;
      }
      t := DescriptorFile;
    } else {
      var suffix;
      ok, number, suffix := ConsumeDecimalNumber(filename);
      if !ok {
        NoOtherSplit(filename, number, suffix, ok);
        return;
      }
      if suffix == ".log" {
        t := LogFile;
      } else if suffix == ".sst" || suffix == ".ldb" {
        t := TableFile;
      } else if suffix == ".dbtmp" {
        t := TempFile;
      } else {
        NoOtherSplit(filename, number, suffix, ok);
        ok := false;
      }
    }
  }

  /** A numbered name starts with a digit, and none of the fixed names does. */
  lemma FirstLetters(name: string)
    ensures forall k: nat, n: nat, suffix: string :: Splits(name, k, n, suffix) ==>
              IsDigit(name[0]) && !("MANIFEST-" <= name) && name != "CURRENT" && name != "LOCK" && name != "LOG"
              && name != "LOG.old"
  {
    forall k: nat, n: nat, suffix: string | Splits(name, k, n, suffix) ensures IsDigit(name[0]) {
      assert name[..k][0] == name[0];
    }
  }

  /** What the digits leave over is the same however one looks at it. */
  lemma NoOtherSplit(name: string, number: nat, rest: string, ok: bool)
    requires ok ==> exists k: nat :: Splits(name, k, number, rest) && (rest == [] || !IsDigit(rest[0]))
    requires !ok ==> forall k: nat, n: nat, suffix: string :: Splits(name, k, n, suffix) ==>
                       suffix != [] && IsDigit(suffix[0])
    ensures forall k: nat, n: nat, suffix: string ::
              Splits(name, k, n, suffix) && (suffix == [] || !IsDigit(suffix[0])) ==>
                ok && n == number && suffix == rest
  {
    forall k: nat, n: nat, suffix: string | Splits(name, k, n, suffix) && (suffix == [] || !IsDigit(suffix[0]))
      ensures ok && n == number && suffix == rest
    {
      var j :| Splits(name, j, number, rest) && (rest == [] || !IsDigit(rest[0]));
      SameSplit(name, j, k);
    }
  }

  lemma SameSplit(name: string, j: nat, k: nat)
    requires j <= |name| && AllDigits(name[..j]) && (j == |name| || !IsDigit(name[j]))
    requires k <= |name| && AllDigits(name[..k]) && (k == |name| || !IsDigit(name[k]))
    ensures j == k
  {
    forall i | 0 <= i < j ensures IsDigit(name[i]) {
      assert name[..j][i] == name[i];
    }
    forall i | 0 <= i < k ensures IsDigit(name[i]) {
      assert name[..k][i] == name[i];
    }
  }

  // ----- printing and parsing agree -----

  lemma NumberedIsUnique(name: string, m: nat, s: string, n: nat, u: string)
    requires IsNumbered(name, m, s) && IsNumbered(name, n, u)
    requires (s == [] || !IsDigit(s[0])) && (u == [] || !IsDigit(u[0]))
    ensures m == n && s == u
  {
    var j :| Splits(name, j, m, s);
    var k :| Splits(name, k, n, u);
    SameSplit(name, j, k);
  }

  /** The suffix that makes `name` a file of a numbered type. */
  lemma SuffixOf(name: string, n: nat, t: FileType) returns (s: string)
    requires Names(name, n, t) && t in {LogFile, TableFile, TempFile}
    ensures IsNumbered(name, n, s) && TypeOfSuffix(s) == [t] && s != [] && s[0] == '.'
  {
    hide Splits;
    s := if t == LogFile then ".log" else if t == TempFile then ".dbtmp"
         else if IsNumbered(name, n, ".sst") then ".sst" else ".ldb";
  }

  /** A name belongs to at most one file. */
  lemma NameIsUnambiguous(name: string, m: nat, t: FileType, n: nat, u: FileType)
    requires Names(name, m, t) && Names(name, n, u)
    ensures m == n && t == u
  {
    hide Splits, Value;
    FirstLetters(name);
    if t.DescriptorFile? {
      NumberedIsUnique(name[9..], m, "", n, "");
    } else if t in {LogFile, TableFile, TempFile} {
      hide TypeOfSuffix;
      var s := SuffixOf(name, m, t);
      var v := SuffixOf(name, n, u);
      NumberedIsUnique(name, m, s, n, v);
    }
  }

  lemma PrintedIsNumbered(number: nat, suffix: string)
    requires number <= MAX_UINT64
    ensures IsNumbered(Padded(number) + suffix, number, suffix)
  {
    PaddedIsRight(number);
    var name := Padded(number) + suffix;
    assert name[..|Padded(number)|] == Padded(number);
    assert Splits(name, |Padded(number)|, number, suffix);
  }

  function Strip(dbname: string, name: string): string
    requires |dbname| + 1 <= |name|
  {
    name[|dbname| + 1..]
  }

  lemma MadeNameParses(dbname: string, number: nat, word: string, t: FileType)
    requires 0 < number <= MAX_UINT64
    requires TypeOfSuffix("." + word) == [t]
    ensures Names(Strip(dbname, MakeFileName(dbname, number, word)), number, t)
  {
    hide Splits, Value, Padded;
    PrintedIsNumbered(number, "." + word);
    assert Strip(dbname, MakeFileName(dbname, number, word)) == Padded(number) + ("." + word);
  }

  /** Every printed name, without its directory, means the number and the type it was printed
      for, whatever the number of digits. */
  lemma PrintedNamesParse(dbname: string, number: nat)
    requires 0 < number <= MAX_UINT64
    ensures Names(Strip(dbname, LogFileName(dbname, number)), number, LogFile)
    ensures Names(Strip(dbname, TableFileName(dbname, number)), number, TableFile)
    ensures Names(Strip(dbname, SSTTableFileName(dbname, number)), number, TableFile)
    ensures Names(Strip(dbname, TempFileName(dbname, number)), number, TempFile)
    ensures Names(Strip(dbname, DescriptorFileName(dbname, number)), number, DescriptorFile)
  {
    hide Splits, Value, Padded, Names, MakeFileName, Strip;
    assert "." + "ldb" == ".ldb" && "." + "sst" == ".sst";
    MadeNameParses(dbname, number, "log", LogFile);
    MadeNameParses(dbname, number, "ldb", TableFile);
    MadeNameParses(dbname, number, "sst", TableFile);
    MadeNameParses(dbname, number, "dbtmp", TempFile);
    DescriptorNameParses(dbname, number);
  }

  lemma DescriptorNameParses(dbname: string, number: nat)
    requires 0 < number <= MAX_UINT64
    ensures Names(Strip(dbname, DescriptorFileName(dbname, number)), number, DescriptorFile)
  {
    hide Splits, Value, Padded;
    PrintedIsNumbered(number, "");
    assert Padded(number) + "" == Padded(number);
    var d := Strip(dbname, DescriptorFileName(dbname, number));
    assert d == "MANIFEST-" + Padded(number) && d[9..] == Padded(number);
  }

  datatype Printer = Log | Ldb | Sst | Temp | Descriptor

  /** One of the five printers of numbered names. */
  function Print(p: Printer, dbname: string, number: nat): string {
    match p
    case Log => LogFileName(dbname, number)
    case Ldb => TableFileName(dbname, number)
    case Sst => SSTTableFileName(dbname, number)
    case Temp => TempFileName(dbname, number)
    case Descriptor => DescriptorFileName(dbname, number)
  }

  function TypeOf(p: Printer): FileType {
    match p
    case Log => LogFile
    case Ldb => TableFile
    case Sst => TableFile
    case Temp => TempFile
    case Descriptor => DescriptorFile
  }

  lemma PrintedMeans(p: Printer, dbname: string, number: nat)
    requires 0 < number <= MAX_UINT64
    ensures |dbname| + 1 <= |Print(p, dbname, number)|
    ensures Names(Strip(dbname, Print(p, dbname, number)), number, TypeOf(p))
  {
    hide Padded, Strip, Names;
    PrintedNamesParse(dbname, number);
  }

  lemma TableNamesDiffer(dbname: string, number: nat)
    ensures TableFileName(dbname, number) != SSTTableFileName(dbname, number)
  {
    var a, b := TableFileName(dbname, number), SSTTableFileName(dbname, number);
    assert a[|a| - 1] == 'b' && b[|b| - 1] == 't';
  }

  /** Printed names collide exactly if printer and number are the same: not across numbers, not
      across types, and not across the two printers for tables. */
  lemma PrintedNamesDiffer(dbname: string, p: Printer, m: nat, q: Printer, n: nat)
    requires 0 < m <= MAX_UINT64 && 0 < n <= MAX_UINT64
    ensures Print(p, dbname, m) == Print(q, dbname, n) <==> p == q && m == n
  {
    hide Padded, Strip, Names, MakeFileName;
    PrintedMeans(p, dbname, m);
    PrintedMeans(q, dbname, n);
    if Print(p, dbname, m) == Print(q, dbname, n) {
      NameIsUnambiguous(Strip(dbname, Print(p, dbname, m)), m, TypeOf(p), n, TypeOf(q));
      TableNamesDiffer(dbname, m);
    }
  }
}
