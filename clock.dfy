/** The instants the program reads from `datetime.now()` and the `strftime`
    renderings it makes of them. */
module Clock {
  import opened Text

  /** A wall-clock instant at second resolution. */
  datatype DateTime = DateTime(year: nat, month: nat, day: nat, hour: nat, minute: nat, second: nat)
  {
    /** Field ranges of a Python `datetime`; the year is taken to have four digits,
        which is what `%Y` renders for the instants the program meets. */
    predicate Valid()
    {
      && 1000 <= year <= 9999 && 1 <= month <= 12 && 1 <= day <= 31
      && hour < 24 && minute < 60 && second < 60
    }
  }

  /** `n` as exactly two decimal digits. */
  function Pad2(n: nat): (r: string)
    requires n < 100
    ensures |r| == 2 && IsDigit(r[0]) && IsDigit(r[1])
  {
    [DigitChar(n / 10), DigitChar(n % 10)]
  }

  /** `n` as exactly four decimal digits. */
  function Pad4(n: nat): (r: string)
    requires n < 10000
    ensures |r| == 4 && IsDigit(r[0]) && IsDigit(r[1]) && IsDigit(r[2]) && IsDigit(r[3])
  {
    Pad2(n / 100) + Pad2(n % 100)
  }

  /** `strftime("%Y%m%d")`. */
  function CompactDate(t: DateTime): (r: string)
    requires t.Valid()
    ensures |r| == 8
  {
    Pad4(t.year) + Pad2(t.month) + Pad2(t.day)
  }

  /** `strftime("%Y-%m-%d")`. */
  function IsoDate(t: DateTime): (r: string)
    requires t.Valid()
    ensures |r| == 10 && r[4] == '-' && r[7] == '-'
  {
    Pad4(t.year) + "-" + Pad2(t.month) + "-" + Pad2(t.day)
  }

  /** `strftime("%Y%m%d_%H%M%S")`: fifteen characters, digits around one underscore. */
  function Stamp(t: DateTime): (r: string)
    requires t.Valid()
    ensures |r| == 15
    ensures forall i :: 0 <= i < 15 ==> (if i == 8 then r[i] == '_' else IsDigit(r[i]))
  {
    CompactDate(t) + "_" + Pad2(t.hour) + Pad2(t.minute) + Pad2(t.second)
  }

  /** The ISO date is the compact date with a dash after the year and after the month. */
  lemma IsoFromCompact(t: DateTime)
    requires t.Valid()
    ensures IsoDate(t) == CompactDate(t)[..4] + "-" + CompactDate(t)[4..6] + "-" + CompactDate(t)[6..]
  {
  }

  /** The timestamp opens with the compact date. */
  lemma StampDate(t: DateTime)
    requires t.Valid()
    ensures Stamp(t)[..8] == CompactDate(t)
  {
  }

  lemma DigitCharInjective(a: nat, b: nat)
    requires a < 10 && b < 10 && DigitChar(a) == DigitChar(b)
    ensures a == b
  {
  }

  lemma Pad2Injective(a: nat, b: nat)
    requires a < 100 && b < 100 && Pad2(a) == Pad2(b)
    ensures a == b
  {
    assert Pad2(a)[0] == Pad2(b)[0] && Pad2(a)[1] == Pad2(b)[1];
    DigitCharInjective(a / 10, b / 10);
    DigitCharInjective(a % 10, b % 10);
  }

  lemma Pad4Injective(a: nat, b: nat)
    requires a < 10000 && b < 10000 && Pad4(a) == Pad4(b)
    ensures a == b
  {
    assert Pad4(a)[..2] == Pad2(a / 100) && Pad4(b)[..2] == Pad2(b / 100);
    assert Pad4(a)[2..] == Pad2(a % 100) && Pad4(b)[2..] == Pad2(b % 100);
    Pad2Injective(a / 100, b / 100);
    Pad2Injective(a % 100, b % 100);
  }

  lemma StampParts(t: DateTime)
    requires t.Valid()
    ensures Stamp(t)[0..4] == Pad4(t.year) && Stamp(t)[4..6] == Pad2(t.month) && Stamp(t)[6..8] == Pad2(t.day)
    ensures Stamp(t)[9..11] == Pad2(t.hour) && Stamp(t)[11..13] == Pad2(t.minute) && Stamp(t)[13..15] == Pad2(t.second)
  {
    var time := Pad2(t.hour) + Pad2(t.minute) + Pad2(t.second);
    assert Stamp(t) == CompactDate(t) + "_" + time;
    assert Stamp(t)[9..15] == time;
    assert time[0..2] == Pad2(t.hour) && time[2..4] == Pad2(t.minute) && time[4..6] == Pad2(t.second);
  }

  /** Two instants give the same stamp only when they fall in the same second. */
  lemma StampInjective(a: DateTime, b: DateTime)
    requires a.Valid() && b.Valid()
    ensures Stamp(a) == Stamp(b) <==> a == b
  {
    if Stamp(a) == Stamp(b) {
      var sa, sb := Stamp(a), Stamp(b);
      StampParts(a);
      StampParts(b);
      assert sa[0..4] == Pad4(a.year) && sb[0..4] == Pad4(b.year);
      assert sa[4..6] == Pad2(a.month) && sb[4..6] == Pad2(b.month);
      assert sa[6..8] == Pad2(a.day) && sb[6..8] == Pad2(b.day);
      assert sa[9..11] == Pad2(a.hour) && sb[9..11] == Pad2(b.hour);
      assert sa[11..13] == Pad2(a.minute) && sb[11..13] == Pad2(b.minute);
      assert sa[13..15] == Pad2(a.second) && sb[13..15] == Pad2(b.second);
      Pad4Injective(a.year, b.year);
      Pad2Injective(a.month, b.month);
      Pad2Injective(a.day, b.day);
      Pad2Injective(a.hour, b.hour);
      Pad2Injective(a.minute, b.minute);
      Pad2Injective(a.second, b.second);
    }
  }
}
