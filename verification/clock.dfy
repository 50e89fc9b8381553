/** The elapsed-time display of the stats bar (src/components/Stats.tsx):
    whole seconds rendered as `m:ss`, and the reading that inverts it. */
module Clock {
  import opened Wrappers

  predicate IsDigit(c: char) {
    '0' <= c <= '9'
  }

  predicate AllDigits(s: string) {
    forall i :: 0 <= i < |s| ==> IsDigit(s[i])
  }

  function DigitChar(d: nat): (c: char)
    requires d < 10
    ensures IsDigit(c)
    ensures DigitValue(c) == d
  {
    ('0' as int + d) as char
  }

  /** The value of a decimal digit character (zero for any other character). */
  function DigitValue(c: char): (d: nat)
    ensures d < 10
  {
    if IsDigit(c) then c as int - '0' as int else 0
  }

  /** Every digit character is the printout of its value. */
  lemma DigitValueChar(c: char)
    requires IsDigit(c)
    ensures DigitChar(DigitValue(c)) == c
  {
  }

  /** The number a string of decimal digits denotes, most significant first. */
  function DigitsValue(s: string): nat {
    if |s| == 0 then 0
    else DigitsValue(s[..|s| - 1]) * 10 + DigitValue(s[|s| - 1])
  }

  /** A digit string in the form `toString` produces: non-empty, and no
      leading zero unless it is the single digit zero. */
  predicate Canonical(s: string) {
    && |s| >= 1
    && AllDigits(s)
    && (|s| > 1 ==> s[0] != '0')
  }

  /** `n.toString()` for a non-negative integer. */
  function NatToString(n: nat): (r: string)
    ensures Canonical(r)
    ensures DigitsValue(r) == n
    ensures n < 10 <==> |r| == 1
    ensures n < 100 ==> |r| <= 2
    decreases n
  {
    if n < 10 then [DigitChar(n)]
    else
      var prefix := NatToString(n / 10);
      var r := prefix + [DigitChar(n % 10)];
      assert r[..|r| - 1] == prefix;
      assert r[0] == prefix[0];
      r
  }

  lemma {:induction false} NonZeroDigitGivesPositive(s: string, k: nat)
    requires AllDigits(s)
    requires k < |s| && s[k] != '0'
    ensures DigitsValue(s) > 0
    decreases |s|
  {
    if k < |s| - 1 {
      var prefix := s[..|s| - 1];
      assert prefix[k] == s[k];
      NonZeroDigitGivesPositive(prefix, k);
    }
  }

  /** Every canonical digit string is what `toString` prints for its value. */
  lemma {:induction false} CanonicalIsPrinted(s: string)
    requires Canonical(s)
    ensures NatToString(DigitsValue(s)) == s
    decreases |s|
  {
    var last := s[|s| - 1];
    DigitValueChar(last);
    if |s| == 1 {
      assert DigitsValue(s) == DigitValue(last) by {
        assert s[..0] == [];
      }
      assert NatToString(DigitsValue(s)) == [last];
    } else {
      var prefix := s[..|s| - 1];
      assert prefix[0] == s[0];
      NonZeroDigitGivesPositive(prefix, 0);
      CanonicalIsPrinted(prefix);
      var n := DigitsValue(s);
      assert n / 10 == DigitsValue(prefix) && n % 10 == DigitValue(last);
      assert s == prefix + [last];
    }
  }

  /** `String.prototype.padStart` with a one-character pad. */
  function PadStart(s: string, width: nat, pad: char): (r: string)
    ensures |r| == if |s| >= width then |s| else width
    ensures r[|r| - |s|..] == s
    ensures forall i :: 0 <= i < |r| - |s| ==> r[i] == pad
  {
    if |s| >= width then s else seq(width - |s|, _ => pad) + s
  }

  /** `formatTime`: whole minutes, a colon, then the remaining seconds as two
      digits; reading it back as minutes times 60 plus seconds gives the input. */
  function FormatTime(seconds: nat): (r: string)
    ensures |r| >= 4 && r[|r| - 3] == ':'
    ensures ParseTime(r) == Some(seconds)
  {
    DisplayReadsBack(seconds);
    NatToString(seconds / 60) + [':'] + PadStart(NatToString(seconds % 60), 2, '0')
  }

  lemma DisplayReadsBack(seconds: nat)
    ensures var r := NatToString(seconds / 60) + [':'] + PadStart(NatToString(seconds % 60), 2, '0');
      && |r| >= 4 && r[|r| - 3] == ':'
      && ParseTime(r) == Some(seconds)
  {
    var mins := NatToString(seconds / 60);
    var secs := PadStart(NatToString(seconds % 60), 2, '0');
    PaddedSecondsValue(seconds % 60);
    ParseFields(mins, secs);
    DisplayedFieldsRead(seconds);
  }

  /** The displayed fields are read back as the seconds they were printed from. */
  lemma DisplayedFieldsRead(seconds: nat)
    ensures ReadFields(NatToString(seconds / 60), PadStart(NatToString(seconds % 60), 2, '0')) == Some(seconds)
  {
    var mins := NatToString(seconds / 60);
    var secs := PadStart(NatToString(seconds % 60), 2, '0');
    DisplayedFieldsWellFormed(seconds);
    DisplayedFieldsValue(seconds);
    ReadWellFormedFields(mins, secs, seconds);
  }

  lemma DisplayedFieldsWellFormed(seconds: nat)
    ensures Canonical(NatToString(seconds / 60))
    ensures var secs := PadStart(NatToString(seconds % 60), 2, '0');
      AllDigits(secs) && DigitsValue(secs) < 60
  {
    PaddedSecondsValue(seconds % 60);
  }

  lemma DisplayedFieldsValue(seconds: nat)
    ensures var secs := PadStart(NatToString(seconds % 60), 2, '0');
      DigitsValue(NatToString(seconds / 60)) * 60 + DigitsValue(secs) == seconds
  {
    PaddedSecondsValue(seconds % 60);
  }

  lemma ReadWellFormedFields(mins: string, secs: string, seconds: nat)
    requires Canonical(mins) && AllDigits(secs) && DigitsValue(secs) < 60
    requires DigitsValue(mins) * 60 + DigitsValue(secs) == seconds
    ensures ReadFields(mins, secs) == Some(seconds)
  {
  }

  lemma PaddedSecondsValue(secs: nat)
    requires secs < 60
    ensures var p := PadStart(NatToString(secs), 2, '0');
      |p| == 2 && AllDigits(p) && DigitsValue(p) == secs
  {
    var d := NatToString(secs);
    var p := PadStart(d, 2, '0');
    if |d| == 1 {
      assert p == ['0'] + d;
      assert p[..1] == ['0'];
      assert DigitsValue(['0']) == 0 by {
        assert ['0'][..0] == [];
      }
    }
  }

  /** Reads `m:ss` back as a number of seconds, accepting exactly the strings
      the formatter can produce. */
  function ParseTime(t: string): Option<nat> {
    if |t| < 4 || t[|t| - 3] != ':' then None
    else ReadFields(t[..|t| - 3], t[|t| - 2..])
  }

  /** The value of a minutes field and a seconds field, when both are well formed. */
  function ReadFields(mins: string, secs: string): Option<nat> {
    if Canonical(mins) && AllDigits(secs) && DigitsValue(secs) < 60
    then Some(DigitsValue(mins) * 60 + DigitsValue(secs))
    else None
  }

  /** The reader cuts minutes, colon and a two-character seconds field apart. */
  lemma ParseFields(mins: string, secs: string)
    requires |mins| >= 1 && |secs| == 2
    ensures ParseTime(mins + [':'] + secs) == ReadFields(mins, secs)
    ensures (mins + [':'] + secs)[..|mins|] == mins
  {
    SplitAround(mins, ':', secs);
  }

  /** Cutting `a + [x] + b` around the separator gives back its parts. */
  lemma SplitAround<T>(a: seq<T>, x: T, b: seq<T>)
    ensures var t := a + [x] + b;
      |t| == |a| + 1 + |b| && t[|a|] == x && t[..|a|] == a && t[|a| + 1..] == b
  {
    var t := a + [x] + b;
    assert t[..|a|] == a;
    assert t[|a| + 1..] == b;
  }

  /** Any two-digit seconds field is what the padded formatter prints for its value. */
  lemma TwoDigitsPrinted(secs: string)
    requires |secs| == 2 && AllDigits(secs)
    ensures PadStart(NatToString(DigitsValue(secs)), 2, '0') == secs
  {
    var sv := DigitsValue(secs);
    if secs[0] == '0' {
      assert DigitsValue(secs[..1]) == 0 by {
        assert secs[..1][..0] == [];
      }
      assert sv == DigitValue(secs[1]);
      DigitValueChar(secs[1]);
      assert NatToString(sv) == [secs[1]];
    } else {
      CanonicalIsPrinted(secs);
    }
  }

  /** A string that reads back as some number of seconds is exactly the
      display of that number. */
  lemma ParseThenFormat(t: string, seconds: nat)
    requires ParseTime(t) == Some(seconds)
    ensures FormatTime(seconds) == t
  {
    var mins := t[..|t| - 3];
    var secs := t[|t| - 2..];
    var m := DigitsValue(mins);
    var sv := DigitsValue(secs);
    MinutesAndSeconds(seconds, m, sv);
    CanonicalIsPrinted(mins);
    TwoDigitsPrinted(secs);
    SplitAtColon(t);
  }

  lemma MinutesAndSeconds(seconds: nat, m: nat, s: nat)
    requires s < 60 && seconds == m * 60 + s
    ensures seconds / 60 == m && seconds % 60 == s
  {
  }

  lemma SplitAtColon(t: string)
    requires |t| >= 4 && t[|t| - 3] == ':'
    ensures t == t[..|t| - 3] + [':'] + t[|t| - 2..]
  {
  }
}
