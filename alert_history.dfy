/** The daily deduplication key and the alert history file shared by both front ends. */
module AlertHistory {
  import opened Wrappers
  import opened Risk

  /** A calendar date as `datetime.now()` reports it. */
  datatype Date = Date(year: int, month: int, day: int)

  predicate IsLeapYear(y: int) {
    (y % 4 == 0 && y % 100 != 0) || y % 400 == 0
  }

  function DaysInMonth(y: int, m: int): int {
    if m == 2 then (if IsLeapYear(y) then 29 else 28)
    else if m == 4 || m == 6 || m == 9 || m == 11 then 30
    else 31
  }

  /** Dates Python's `datetime` can represent. */
  predicate ValidDate(d: Date) {
    1 <= d.year <= 9999 && 1 <= d.month <= 12 && 1 <= d.day <= DaysInMonth(d.year, d.month)
  }

  function DigitChar(n: int): char
    requires 0 <= n < 10
  {
    ('0' as int + n) as char
  }

  function DigitValue(c: char): int {
    c as int - '0' as int
  }

  /** Digit `place` (0 for units) of `n` as a character. */
  function Digit(n: int, place: nat): char {
    DigitChar(n / Pow10(place) % 10)
  }

  function Pow10(k: nat): (p: int)
    ensures p >= 1
  {
    if k == 0 then 1 else 10 * Pow10(k - 1)
  }

  /** `strftime('%Y-%m-%d')`: four digits of the year, two of the month and of the day,
      zero-padded; always ten characters. */
  function DateStamp(d: Date): (r: string)
    ensures |r| == 10 && r[4] == '-' && r[7] == '-'
  {
    [Digit(d.year, 3), Digit(d.year, 2), Digit(d.year, 1), Digit(d.year, 0), '-',
     Digit(d.month, 1), Digit(d.month, 0), '-', Digit(d.day, 1), Digit(d.day, 0)]
  }

  /** Reads the date back out of a ten-character stamp. */
  function DateOfStamp(s: string): Date
    requires |s| == 10
  {
    Date(1000 * DigitValue(s[0]) + 100 * DigitValue(s[1]) + 10 * DigitValue(s[2]) + DigitValue(s[3]),
         10 * DigitValue(s[5]) + DigitValue(s[6]),
         10 * DigitValue(s[8]) + DigitValue(s[9]))
  }

  /** A number below 100 reads back from its two digits. */
  lemma TwoDigits(n: int)
    requires 0 <= n < 100
    ensures 10 * DigitValue(Digit(n, 1)) + DigitValue(Digit(n, 0)) == n
  {
    assert Pow10(1) == 10 && Pow10(0) == 1;
    assert n / 10 % 10 == n / 10;
  }

  /** A number below 10000 reads back from its four digits. */
  lemma FourDigits(n: int)
    requires 0 <= n < 10000
    ensures 1000 * DigitValue(Digit(n, 3)) + 100 * DigitValue(Digit(n, 2)) + 10 * DigitValue(Digit(n, 1))
      + DigitValue(Digit(n, 0)) == n
  {
    assert Pow10(3) == 1000 && Pow10(2) == 100 && Pow10(1) == 10 && Pow10(0) == 1;
    var q1, q2, q3 := n / 10, n / 100, n / 1000;
    assert q2 == q1 / 10 && q3 == q2 / 10;
    assert q3 % 10 == q3;
  }

  /** The stamp of a date determines the date. */
  lemma StampRoundTrip(d: Date)
    requires ValidDate(d)
    ensures DateOfStamp(DateStamp(d)) == d
  {
    FourDigits(d.year);
    TwoDigits(d.month);
    TwoDigits(d.day);
  }

  /** `f"{material}-{location}-{date}"`: the key of one dependency on one day. */
  function AlertKey(material: string, location: string, today: Date): (k: string)
    ensures |k| == |material| + |location| + 12
    ensures k[|k| - 10..] == DateStamp(today)
  {
    material + "-" + location + "-" + DateStamp(today)
  }

  /** The key of each dependency of a run, dependency `i` being checked on `days[i]`. */
  function Keys(suppliers: seq<Dependency>, days: seq<Date>): (k: seq<string>)
    requires |suppliers| == |days|
    ensures |k| == |suppliers|
  {
    if suppliers == [] then []
    else
      var n := |suppliers| - 1;
      Keys(suppliers[..n], days[..n]) + [AlertKey(suppliers[n].material, suppliers[n].location, days[n])]
  }

  lemma {:induction false} KeysAt(suppliers: seq<Dependency>, days: seq<Date>, i: int)
    requires |suppliers| == |days| && 0 <= i < |suppliers|
    ensures Keys(suppliers, days)[i] == AlertKey(suppliers[i].material, suppliers[i].location, days[i])
  {
    var n := |suppliers| - 1;
    if i < n {
      KeysAt(suppliers[..n], days[..n], i);
    }
  }

  /** Equal keys were made on the same day, so a key never suppresses an alert on another
      day. (Different pairs may still share a key on the same day.) */
  lemma KeyDeterminesDate(m1: string, l1: string, d1: Date, m2: string, l2: string, d2: Date)
    requires ValidDate(d1) && ValidDate(d2)
    requires AlertKey(m1, l1, d1) == AlertKey(m2, l2, d2)
    ensures d1 == d2
  {
    var k := AlertKey(m1, l1, d1);
    assert DateStamp(d1) == k[|k| - 10..] == DateStamp(d2);
    StampRoundTrip(d1);
    StampRoundTrip(d2);
  }

  /** A steel dependency from China checked on 15 January 2024. */
  lemma SteelChinaKey()
    ensures AlertKey("Steel", "China", Date(2024, 1, 15)) == "Steel-China-2024-01-15"
  {
  }

  /** The history file: absent, not a readable JSON list, or a JSON list of keys. */
  datatype HistoryFile = Missing | Unparsable | Listed(keys: seq<string>)

  /** `_load_history`: a missing or unreadable file gives the empty set; a list is read
      into a set, so repeated entries collapse. */
  function LoadHistory(f: HistoryFile): (h: set<string>)
    ensures forall k :: k in h <==> f.Listed? && k in f.keys
    ensures !f.Listed? ==> h == {}
  {
    match f
    case Listed(keys) => set k | k in keys
    case _ => {}
  }

  /** `list(alert_history)`: the keys of the set, each once, in an order the model leaves
      open. */
  method ListKeys(s: set<string>) returns (xs: seq<string>)
    ensures |xs| == |s|
    ensures forall k :: k in xs <==> k in s
    ensures forall i, j :: 0 <= i < j < |xs| ==> xs[i] != xs[j]
  {
    xs := [];
    var rest := s;
    while rest != {}
      invariant rest <= s
      invariant forall k :: k in xs <==> k in s && k !in rest
      invariant forall i, j :: 0 <= i < j < |xs| ==> xs[i] != xs[j]
      invariant |xs| + |rest| == |s|
      decreases |rest|
    {
      var k :| k in rest;
      xs := xs + [k];
      rest := rest - {k};
    }
  }

  lemma SetUnionAssoc(a: set<string>, b: set<string>, c: set<string>)
    ensures a + b + c == a + (b + c)
  {
  }

  /** Saving a set and loading it back gives the same set. */
  lemma SaveLoadRoundTrip(s: set<string>, xs: seq<string>)
    requires forall k :: k in xs <==> k in s
    ensures LoadHistory(Listed(xs)) == s
  {
  }
}
