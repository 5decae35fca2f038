/** Names of the files the logger touches: the primary path, the decimal suffix
    written by `strconv.Itoa` for size archives and the `YYYY-MM-DD` suffix of
    date archives, with the parses that show each naming is unambiguous. */
module Naming {

  /** The decimal digit character for 0..9. */
  function DigitChar(d: int): (c: char)
    requires 0 <= d < 10
    ensures '0' <= c <= '9' && c as int - '0' as int == d
  {
    ('0' as int + d) as char
  }

  predicate AllDigits(s: string) {
    forall i :: 0 <= i < |s| ==> '0' <= s[i] <= '9'
  }

  /** `strconv.Itoa` on a non-negative integer: its shortest decimal numeral. */
  function Itoa(n: nat): (s: string)
    ensures |s| >= 1 && AllDigits(s)
    ensures n >= 10 ==> |s| >= 2
  {
    if n < 10 then [DigitChar(n)] else Itoa(n / 10) + [DigitChar(n % 10)]
  }

  /** The value of a numeral: the partner of `Itoa` and of `Pad`. */
  function Atoi(s: string): nat
    requires AllDigits(s)
  {
    if s == [] then 0 else Atoi(s[..|s| - 1]) * 10 + (s[|s| - 1] as int - '0' as int)
  }

  /** Appending a digit multiplies the value by ten and adds the digit. */
  lemma AtoiSnoc(s: string, d: int)
    requires AllDigits(s) && 0 <= d < 10
    ensures AllDigits(s + [DigitChar(d)])
    ensures Atoi(s + [DigitChar(d)]) == Atoi(s) * 10 + d
  {
  }

  /** Reading back what `Itoa` wrote gives the number again. */
  lemma {:induction false} AtoiItoa(n: nat)
    ensures Atoi(Itoa(n)) == n
  {
    if n >= 10 {
      AtoiItoa(n / 10);
      AtoiSnoc(Itoa(n / 10), n % 10);
    }
  }

  /** Distinct numbers have distinct numerals. */
  lemma ItoaInjective(i: nat, j: nat)
    requires Itoa(i) == Itoa(j)
    ensures i == j
  {
    AtoiItoa(i);
    AtoiItoa(j);
  }

  function Pow10(k: nat): (p: nat)
    ensures p >= 1
  {
    if k == 0 then 1 else 10 * Pow10(k - 1)
  }

  /** The last `width` decimal digits of `n`, zero-padded on the left, as Go's
      date layout writes the year (4), the month (2) and the day (2). */
  function Pad(n: nat, width: nat): (s: string)
    ensures |s| == width && AllDigits(s)
  {
    if width == 0 then [] else Pad(n / 10, width - 1) + [DigitChar(n % 10)]
  }

  /** Removing the last decimal digit of a number below `10 * p` leaves one below `p`. */
  lemma DropLastDigit(n: nat, p: nat)
    requires n < 10 * p
    ensures n / 10 < p && n == n / 10 * 10 + n % 10
  {
  }

  /** Reading back a padded numeral gives the number when it fits the width. */
  lemma {:induction false} AtoiPad(n: nat, width: nat)
    requires n < Pow10(width)
    ensures Atoi(Pad(n, width)) == n
  {
    if width > 0 {
      assert Pow10(width) == 10 * Pow10(width - 1);
      DropLastDigit(n, Pow10(width - 1));
      var q, d := n / 10, n % 10;
      AtoiPad(q, width - 1);
      AtoiSnoc(Pad(q, width - 1), d);
      assert Pad(n, width) == Pad(q, width - 1) + [DigitChar(d)];
      assert Atoi(Pad(n, width)) == q * 10 + d;
    }
  }

  /** A calendar day, as `getCurrentDate` truncates the clock to midnight. */
  datatype Date = Date(year: int, month: int, day: int)

  predicate ValidDate(d: Date) {
    0 <= d.year <= 9999 && 1 <= d.month <= 12 && 1 <= d.day <= 31
  }

  /** `a.After(b)` for two dates at midnight: a strictly later day. */
  predicate After(a: Date, b: Date) {
    a.year > b.year
    || (a.year == b.year && a.month > b.month)
    || (a.year == b.year && a.month == b.month && a.day > b.day)
  }

  /** `After` is a strict total order on days: no day is after itself, it is
      transitive, and of two different days one is after the other. */
  lemma AfterIsStrictOrder(a: Date, b: Date, c: Date)
    ensures !After(a, a)
    ensures After(a, b) ==> !After(b, a)
    ensures After(a, b) && After(b, c) ==> After(a, c)
    ensures a != b ==> After(a, b) || After(b, a)
  {
  }

  /** `Format("2006-01-02")`: the `YYYY-MM-DD` rendering of a day. */
  function FormatDate(d: Date): (s: string)
    requires ValidDate(d)
    ensures |s| == 10 && s[4] == '-' && s[7] == '-'
    ensures AllDigits(s[..4]) && AllDigits(s[5..7]) && AllDigits(s[8..])
  {
    Pad(d.year, 4) + "-" + Pad(d.month, 2) + "-" + Pad(d.day, 2)
  }

  /** Different days give different date suffixes, so date archives of
      different days never share a name. */
  lemma FormatDateInjective(a: Date, b: Date)
    requires ValidDate(a) && ValidDate(b)
    requires FormatDate(a) == FormatDate(b)
    ensures a == b
  {
    var s := FormatDate(a);
    assert s[..4] == Pad(a.year, 4) == Pad(b.year, 4);
    assert s[5..7] == Pad(a.month, 2) == Pad(b.month, 2);
    assert s[8..] == Pad(a.day, 2) == Pad(b.day, 2);
    assert Pow10(4) == 10000 && Pow10(2) == 100;
    AtoiPad(a.year, 4); AtoiPad(b.year, 4);
    AtoiPad(a.month, 2); AtoiPad(b.month, 2);
    AtoiPad(a.day, 2); AtoiPad(b.day, 2);
  }

  /** `joinFilePath`: the primary log file inside the log directory. */
  function JoinPath(dir: string, file: string): (path: string)
    ensures |path| == |dir| + 1 + |file|
    ensures path[..|dir|] == dir && path[|dir| + 1..] == file
  {
    dir + "/" + file
  }

  /** The archive of the primary file with a given suffix: `<path>.<suffix>`. */
  function ArchiveName(path: string, suffix: string): (archive: string)
    ensures |archive| > |path| && archive[..|path|] == path && archive[|path|] == '.'
  {
    path + "." + suffix
  }

  /** An archive never has the primary's name, and two archives of one primary
      share a name only when they share a suffix. */
  lemma ArchiveNameInjective(path: string, s1: string, s2: string)
    ensures ArchiveName(path, s1) != path
    ensures ArchiveName(path, s1) == ArchiveName(path, s2) ==> s1 == s2
  {
    if ArchiveName(path, s1) == ArchiveName(path, s2) {
      assert s1 == ArchiveName(path, s1)[|path| + 1..];
    }
  }

  /** Size archives with different indices are different files. */
  lemma {:induction false} SizeArchivesDistinct(path: string, i: nat, j: nat)
    requires i != j
    ensures ArchiveName(path, Itoa(i)) != ArchiveName(path, Itoa(j))
  {
    if ArchiveName(path, Itoa(i)) == ArchiveName(path, Itoa(j)) {
      ArchiveNameInjective(path, Itoa(i), Itoa(j));
      ItoaInjective(i, j);
    }
  }
}
