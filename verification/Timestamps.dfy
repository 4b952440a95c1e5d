/**
 * scheduledBackupTimestampDate and scheduledBackupTimestampSedPattern: points
 * in time as fixed-width text, compared as strings by expr and found again in
 * file names by sed.
 */
module Timestamps {
  import opened Wrappers
  import opened Text

  // ---- Strings of equal length compare like what they stand for ----

  /** expr's string comparison, character by character. */
  predicate Less(a: string, b: string) {
    if b == [] then false
    else if a == [] then true
    else if a[0] != b[0] then a[0] < b[0]
    else Less(a[1..], b[1..])
  }

  lemma {:induction false} LessConcat(a: string, x: string, b: string, y: string)
    requires |a| == |b|
    ensures Less(a + x, b + y) <==> Less(a, b) || (a == b && Less(x, y))
  {
    if a == [] {
      assert a + x == x && b + y == y;
    } else {
      assert (a + x)[1..] == a[1..] + x && (b + y)[1..] == b[1..] + y;
      LessConcat(a[1..], x, b[1..], y);
      assert a == b <==> a[0] == b[0] && a[1..] == b[1..];
    }
  }

  function Digit(n: nat): char
    requires n < 10
  {
    '0' + n as char
  }

  /** n with leading zeros. */
  function Digits(n: nat, width: nat): (s: string)
    ensures |s| == width && AllDigits(s)
  {
    if width == 0 then [] else Digits(n / 10, width - 1) + [Digit(n % 10)]
  }

  lemma {:induction false} ValueOfDigits(n: nat, width: nat)
    requires n < Pow10(width)
    ensures Value(Digits(n, width)) == n
  {
    if width > 0 {
      ValueOfDigits(n / 10, width - 1);
    }
  }

  lemma {:induction false} DigitsOfValue(s: string)
    requires AllDigits(s)
    ensures Digits(Value(s), |s|) == s
  {
    if s != [] {
      DigitsOfValue(s[..|s| - 1]);
    }
  }

  lemma {:induction false} DigitsOrder(m: nat, n: nat, width: nat)
    requires m < Pow10(width) && n < Pow10(width)
    ensures Less(Digits(m, width), Digits(n, width)) <==> m < n
    ensures Digits(m, width) == Digits(n, width) <==> m == n
  {
    if width > 0 {
      DigitsOrder(m / 10, n / 10, width - 1);
      LessConcat(Digits(m / 10, width - 1), [Digit(m % 10)], Digits(n / 10, width - 1), [Digit(n % 10)]);
      ValueOfDigits(m, width);
      ValueOfDigits(n, width);
    }
  }

  // ---- Timestamps ----

  datatype Time = Time(year: nat, month: nat, day: nat, hour: nat, minute: nat, second: nat)

  /** What the fields of YYYYMMDDTHHMMSSZ hold. */
  predicate Fits(t: Time) {
    t.year < 10000 && t.month < 100 && t.day < 100 && t.hour < 100 && t.minute < 100 && t.second < 100
  }

  /** Date and time order, most significant field first. */
  predicate Earlier(a: Time, b: Time) {
    if a.year != b.year then a.year < b.year
    else if a.month != b.month then a.month < b.month
    else if a.day != b.day then a.day < b.day
    else if a.hour != b.hour then a.hour < b.hour
    else if a.minute != b.minute then a.minute < b.minute
    else a.second < b.second
  }

  /** Three fields, the first of the given width and the others of two digits. */
  function Triple(a: nat, b: nat, c: nat, width: nat): (s: string)
    ensures |s| == width + 4 && AllDigits(s)
  {
    Digits(a, width) + (Digits(b, 2) + Digits(c, 2))
  }

  predicate EarlierTriple(a: nat, b: nat, c: nat, x: nat, y: nat, z: nat) {
    a < x || (a == x && (b < y || (b == y && c < z)))
  }

  lemma TripleOrder(a: nat, b: nat, c: nat, x: nat, y: nat, z: nat, width: nat)
    requires a < Pow10(width) && x < Pow10(width) && b < 100 && c < 100 && y < 100 && z < 100
    ensures Less(Triple(a, b, c, width), Triple(x, y, z, width)) <==> EarlierTriple(a, b, c, x, y, z)
    ensures Triple(a, b, c, width) == Triple(x, y, z, width) <==> a == x && b == y && c == z
  {
    assert Pow10(2) == 100;
    DigitsOrder(a, x, width);
    DigitsOrder(b, y, 2);
    DigitsOrder(c, z, 2);
    LessConcat(Digits(b, 2), Digits(c, 2), Digits(y, 2), Digits(z, 2));
    LessConcat(Digits(a, width), Digits(b, 2) + Digits(c, 2), Digits(x, width), Digits(y, 2) + Digits(z, 2));
    var s, t := Triple(a, b, c, width), Triple(x, y, z, width);
    assert s[..width] == Digits(a, width) && s[width..width + 2] == Digits(b, 2) && s[width + 2..] == Digits(c, 2);
    assert t[..width] == Digits(x, width) && t[width..width + 2] == Digits(y, 2) && t[width + 2..] == Digits(z, 2);
  }

  lemma FieldReads(s: string, width: nat)
    requires AllDigits(s) && |s| == width
    ensures Value(s) < Pow10(width) && Digits(Value(s), width) == s
  {
    ValueBound(s);
    DigitsOfValue(s);
  }

  lemma TripleReads(s: string, width: nat)
    requires AllDigits(s) && |s| == width + 4
    ensures var a, b, c := Value(s[..width]), Value(s[width..width + 2]), Value(s[width + 2..]);
      a < Pow10(width) && b < Pow10(2) && c < Pow10(2) && Triple(a, b, c, width) == s
  {
    var x, y, z := s[..width], s[width..width + 2], s[width + 2..];
    FieldReads(x, width);
    FieldReads(y, 2);
    FieldReads(z, 2);
    Rejoined(s, width);
  }

  lemma Rejoined(s: string, width: nat)
    requires |s| == width + 4
    ensures s == s[..width] + (s[width..width + 2] + s[width + 2..])
  {
  }

  /** date -u +%Y%m%dT%H%M%SZ. */
  function Render(t: Time): string {
    Triple(t.year, t.month, t.day, 4) + ("T" + (Triple(t.hour, t.minute, t.second, 2) + "Z"))
  }

  /** As strings, two timestamps compare exactly as points in time. */
  lemma StampsOrderAsTimes(a: Time, b: Time)
    requires Fits(a) && Fits(b)
    ensures Less(Render(a), Render(b)) <==> Earlier(a, b)
    ensures Render(a) == Render(b) <==> a == b
  {
    assert Pow10(4) == 10000 && Pow10(2) == 100;
    TripleOrder(a.year, a.month, a.day, b.year, b.month, b.day, 4);
    TripleOrder(a.hour, a.minute, a.second, b.hour, b.minute, b.second, 2);
    var d, e := Triple(a.year, a.month, a.day, 4), Triple(b.year, b.month, b.day, 4);
    var s, t := Triple(a.hour, a.minute, a.second, 2), Triple(b.hour, b.minute, b.second, 2);
    LessConcat(s, "Z", t, "Z");
    LessConcat("T", s + "Z", "T", t + "Z");
    LessConcat(d, "T" + (s + "Z"), e, "T" + (t + "Z"));
    assert Render(a)[..8] == d && Render(b)[..8] == e;
    assert Render(a)[9..15] == s && Render(b)[9..15] == t;
  }

  /** [0-9]\{8\}T[0-9]\{6\}Z */
  predicate IsStamp(s: string) {
    |s| == 16 && AllDigits(s[..8]) && s[8] == 'T' && AllDigits(s[9..15]) && s[15] == 'Z'
  }

  lemma RenderedIsStamp(t: Time)
    ensures IsStamp(Render(t))
  {
    var d, c := Triple(t.year, t.month, t.day, 4), Triple(t.hour, t.minute, t.second, 2);
    var s := Render(t);
    assert s[..8] == d;
    assert s[9..15] == c;
  }

  lemma StampIsRendered(s: string) returns (t: Time)
    requires IsStamp(s)
    ensures Fits(t) && s == Render(t)
  {
    var d, c := s[..8], s[9..15];
    TripleReads(d, 4);
    TripleReads(c, 2);
    assert Pow10(4) == 10000 && Pow10(2) == 100;
    t := Time(Value(d[..4]), Value(d[4..6]), Value(d[6..]), Value(c[..2]), Value(c[2..4]), Value(c[4..]));
    assert Triple(t.year, t.month, t.day, 4) == d;
    assert Triple(t.hour, t.minute, t.second, 2) == c;
    assert s == d + ("T" + (c + "Z"));
  }

  /** The pattern matches exactly the timestamps of times. */
  lemma StampsAreRendered(s: string)
    ensures IsStamp(s) <==> exists t :: Fits(t) && s == Render(t)
  {
    if IsStamp(s) {
      var t := StampIsRendered(s);
    }
    forall t | Fits(t) && s == Render(t) ensures IsStamp(s) {
      RenderedIsStamp(t);
    }
  }

  // ---- File names ----

  datatype Kind = Gbak | Nbackup

  /** "<stem>-<timestamp>.fbk" or ".nbk", compressed or not. */
  function FileName(stem: string, stamp: string, kind: Kind, compressed: bool): string {
    stem + "-" + stamp + (if kind.Gbak? then ".fbk" else ".nbk") + (if compressed then ".gz" else "")
  }

  lemma TwoDigits(n: nat)
    requires n < 100
    ensures Digits(n, 2) == [Digit(n / 10), Digit(n % 10)]
  {
    assert Digits(n / 10, 1) == Digits(n / 100, 0) + [Digit(n / 10)];
  }

  lemma FourDigits(n: nat)
    requires n < 10000
    ensures Digits(n, 4) == Digits(n / 100, 2) + Digits(n % 100, 2)
  {
    TwoDigits(n % 100);
    assert Digits(n, 4) == Digits(n / 10, 3) + [Digit(n % 10)];
    assert Digits(n / 10, 3) == Digits(n / 100, 2) + [Digit(n / 10 % 10)];
  }

  /** As it is printed: year, month and day, "T", hour, minute and second, "Z". */
  lemma PrintedStamp(t: Time)
    requires Fits(t)
    ensures Render(t) ==
      Digits(t.year / 100, 2) + Digits(t.year % 100, 2) + Digits(t.month, 2) + Digits(t.day, 2)
      + "T" + Digits(t.hour, 2) + Digits(t.minute, 2) + Digits(t.second, 2) + "Z"
  {
    FourDigits(t.year);
  }

  lemma PrintedName(stem: string, stamp: string)
    ensures FileName(stem, stamp, Gbak, false) == stem + "-" + stamp + ".fbk"
    ensures FileName(stem, stamp, Gbak, true) == stem + "-" + stamp + ".fbk.gz"
    ensures FileName(stem, stamp, Nbackup, false) == stem + "-" + stamp + ".nbk"
    ensures FileName(stem, stamp, Nbackup, true) == stem + "-" + stamp + ".nbk.gz"
  {
    assert ".fbk" + ".gz" == ".fbk.gz" && ".nbk" + ".gz" == ".nbk.gz";
  }

  /** What sed's s/.*-\(stamp\)\.[fn]bk\(\.gz\)\{0,1\}$/\1/p prints. */
  function Extract(name: string): Option<string> {
    var plain := TrimSuffix(name, ".gz");
    var n := |plain|;
    if n < 21 || !(HasSuffix(plain, ".fbk") || HasSuffix(plain, ".nbk")) then None
    else if plain[n - 21] != '-' || !IsStamp(plain[n - 20..n - 4]) then None
    else Some(plain[n - 20..n - 4])
  }

  /** The timestamp comes back from every name printed with it, whatever the stem. */
  lemma ExtractFromPrinted(stem: string, stamp: string, kind: Kind, compressed: bool)
    requires IsStamp(stamp)
    ensures Extract(FileName(stem, stamp, kind, compressed)) == Some(stamp)
  {
    var ext := if kind.Gbak? then ".fbk" else ".nbk";
    var plain := stem + "-" + stamp + ext;
    var name := FileName(stem, stamp, kind, compressed);
    var n := |plain|;
    assert plain[n - 4..] == ext;
    assert plain[n - 3..] == ext[1..];
    assert plain[n - 20..n - 4] == stamp;
    assert plain[n - 21] == '-';
    if compressed {
      assert name == plain + ".gz";
      assert name[|name| - 3..] == ".gz" && name[..|name| - 3] == plain;
    } else {
      assert name == plain;
      assert plain[n - 1] == 'k';
    }
  }

  /** And only from those: a name yields a timestamp exactly when it was printed with it. */
  lemma ExtractsExactly(name: string, stamp: string)
    ensures Extract(name) == Some(stamp) <==>
            IsStamp(stamp) && exists stem, kind, compressed :: name == FileName(stem, stamp, kind, compressed)
  {
    if Extract(name) == Some(stamp) {
      var plain := TrimSuffix(name, ".gz");
      var n := |plain|;
      var kind := if HasSuffix(plain, ".fbk") then Gbak else Nbackup;
      var stem := plain[..n - 21];
      assert plain == stem + "-" + stamp + plain[n - 4..];
      assert name == FileName(stem, stamp, kind, HasSuffix(name, ".gz"));
    } else if IsStamp(stamp) {
      forall stem, kind, compressed | name == FileName(stem, stamp, kind, compressed)
        ensures false
      {
        ExtractFromPrinted(stem, stamp, kind, compressed);
      }
    }
  }
}
