/** The coarse age labels of command_center/frontend/src/lib/format.ts. */
module RelativeTime {
  import opened Prelude
  import opened Text

  datatype Label = Unknown | JustNow | Minutes(n: int) | Hours(n: int) | Yesterday | Days(n: int)

  // Math.round(a / b): halves go up.
  function Rounded(a: int, b: int): int
    requires b > 0
  {
    (2 * a + b) / (2 * b)
  }

  // `then` is the parsed instant, if there is one; both are milliseconds.
  function LabelOf(then_: Option<int>, now: int): Label {
    if then_.None? then Unknown
    else
      var r := Rounded(now - then_.value, 1000);
      OfSeconds(if r < 0 then 0 else r)
  }

  function OfSeconds(secs: nat): Label {
    if secs < 45 then JustNow
    else
      var mins := Rounded(secs, 60);
      if mins < 60 then Minutes(mins)
      else
        var hrs := Rounded(mins, 60);
        if hrs < 24 then Hours(hrs)
        else
          var days := Rounded(hrs, 24);
          if days == 1 then Yesterday else Days(days)
  }

  function Shown(l: Label): string {
    match l
    case Unknown => "—"
    case JustNow => "just now"
    case Minutes(n) => Decimal(n) + "m ago"
    case Hours(n) => Decimal(n) + "h ago"
    case Yesterday => "yesterday"
    case Days(n) => Decimal(n) + "d ago"
  }

  // ----- what a label says of the age, in seconds

  // The seconds that a label covers, [from, to): three roundings seen as one.
  predicate Covers(l: Label, secs: int) {
    match l
    case Unknown => false
    case JustNow => 0 <= secs < 45
    case Minutes(n) => 45 <= secs && 1 <= n <= 59 && 60 * n - 30 <= secs < 60 * n + 30
    case Hours(n) => 1 <= n <= 23 && 3600 * n - 1830 <= secs < 3600 * n + 1770 && 3570 <= secs
    case Yesterday => 84570 <= secs < 127770
    case Days(n) => 2 <= n && 86400 * n - 45030 <= secs < 86400 * n + 41370
  }

  lemma RoundedIs(a: int, r: int)
    ensures Rounded(a, 1000) == r <==> 1000 * r - 500 <= a < 1000 * r + 500
    ensures Rounded(a, 60) == r <==> 60 * r - 30 <= a < 60 * r + 30
    ensures Rounded(a, 24) == r <==> 24 * r - 12 <= a < 24 * r + 12
  {
  }

  /** A label is shown exactly for the seconds it covers: so no label ever reads 0
      units, 60 minutes, 24 hours or one day in digits. */
  lemma LabelIff(secs: nat, l: Label)
    ensures OfSeconds(secs) == l <==> Covers(l, secs)
  {
    var mins := Rounded(secs, 60);
    var hrs := Rounded(mins, 60);
    var days := Rounded(hrs, 24);
    RoundedIs(secs, mins);
    RoundedIs(mins, hrs);
    RoundedIs(hrs, days);
    hide Rounded;
  }

  // ----- the age itself, in milliseconds

  /** A label is off by at most 30 s for minutes, 1830 s for hours and 45030 s for days,
      and by the half second of the first rounding; "just now" is under 44.5 s. */
  lemma ErrorBounded(instant: int, now: int)
    requires instant <= now
    ensures var age := now - instant;
            match LabelOf(Some(instant), now)
            case Unknown => false
            case JustNow => age < 44500
            case Minutes(n) => -30500 <= age - 60000 * n <= 30500
            case Hours(n) => -1830500 <= age - 3600000 * n <= 1830500
            case Yesterday => -45030500 <= age - 86400000 <= 45030500
            case Days(n) => -45030500 <= age - 86400000 * n <= 45030500
  {
    var r := Rounded(now - instant, 1000);
    RoundedIs(now - instant, r);
    LabelIff(r, OfSeconds(r));
    hide OfSeconds, Rounded;
  }

  /** An instant that is still to come reads "just now". */
  lemma FutureIsNow(instant: int, now: int)
    requires now < instant
    ensures LabelOf(Some(instant), now) == JustNow
  {
    var r := Rounded(now - instant, 1000);
    RoundedIs(now - instant, r);
  }

  /** No bound can be smaller: 2m, 2h and 2d are each shown at the far end. */
  lemma BoundsAreTight(instant: int)
    ensures LabelOf(Some(instant), instant + 120000 - 30500) == Minutes(2)
    ensures LabelOf(Some(instant), instant + 7200000 - 1830500) == Hours(2)
    ensures LabelOf(Some(instant), instant + 172800000 - 45030500) == Days(2)
  {
    RoundedIs(89500, 90);
    RoundedIs(5369500, 5370);
    RoundedIs(127769500, 127770);
    LabelIff(90, Minutes(2));
    LabelIff(5370, Hours(2));
    LabelIff(127770, Days(2));
  }

  // ----- order

  function Unit(l: Label): int {
    match l
    case Unknown => -1
    case JustNow => 0
    case Minutes(_) => 1
    case Hours(_) => 2
    case Yesterday => 3
    case Days(_) => 4
  }

  function Count(l: Label): int {
    match l
    case Minutes(n) => n
    case Hours(n) => n
    case Days(n) => n
    case _ => 0
  }

  // Not more recent, as a reader compares two labels: by unit, then by number.
  predicate AtMost(a: Label, b: Label) {
    Unit(a) < Unit(b) || (Unit(a) == Unit(b) && Count(a) <= Count(b))
  }

  lemma CoversMonotone(a: Label, b: Label, x: int, y: int)
    requires x <= y && Covers(a, x) && Covers(b, y)
    ensures AtMost(a, b)
  {
  }

  /** As time passes the label of an instant never goes back. */
  lemma Monotone(instant: int, now: int, later: int)
    requires now <= later
    ensures AtMost(LabelOf(Some(instant), now), LabelOf(Some(instant), later))
  {
    var r, s := Rounded(now - instant, 1000), Rounded(later - instant, 1000);
    RoundedIs(now - instant, r);
    RoundedIs(later - instant, s);
    var x, y := if r < 0 then 0 else r, if s < 0 then 0 else s;
    LabelIff(x, OfSeconds(x));
    LabelIff(y, OfSeconds(y));
    hide OfSeconds, Rounded, AtMost;
    CoversMonotone(OfSeconds(x), OfSeconds(y), x, y);
  }

  // ----- what is printed

  lemma {:induction false} DigitsDiffer(m: nat, n: nat)
    requires Digits(m) == Digits(n)
    ensures m == n
  {
    var x, y := Digits(m), Digits(n);
    if m >= 10 { assert |Digits(m / 10)| >= 1 && x[..|x| - 1] == Digits(m / 10); }
    if n >= 10 { assert |Digits(n / 10)| >= 1 && y[..|y| - 1] == Digits(n / 10); }
    assert x[|x| - 1] == y[|y| - 1];
    if m >= 10 && n >= 10 { DigitsDiffer(m / 10, n / 10); }
  }

  // A number and its unit can be told from any other.
  lemma CountsDiffer(m: nat, n: nat, a: string, b: string)
    requires Decimal(m) + a == Decimal(n) + b && |a| == |b|
    ensures m == n && a == b
  {
    var s, k := Decimal(m) + a, |Decimal(m)|;
    assert s[..k] == Decimal(m) == Decimal(n) && s[k..] == a == b;
    DigitsDiffer(m, n);
  }

  /** Labels that read alike are the same label: no unit or count gets lost in print. */
  lemma ShownApart(a: Label, b: Label)
    requires Count(a) >= 0 && Count(b) >= 0 && Shown(a) == Shown(b)
    ensures a == b
  {
    var s, t := Shown(a), Shown(b);
    LastLetter(a);
    LastLetter(b);
    if Counted(a) && Counted(b) {
      CountsDiffer(Count(a), Count(b), Suffix(a), Suffix(b));
      assert Suffix(a)[0] == Suffix(b)[0];
    }
  }

  predicate Counted(l: Label) {
    l.Minutes? || l.Hours? || l.Days?
  }

  function Suffix(l: Label): string
    requires Counted(l)
  {
    match l case Minutes(_) => "m ago" case Hours(_) => "h ago" case Days(_) => "d ago"
  }

  lemma LastLetter(l: Label)
    ensures var s := Shown(l);
            && s != []
            && s[|s| - 1] == match l case Unknown => '—' case JustNow => 'w' case Yesterday => 'y' case _ => 'o'
    ensures Counted(l) ==> Shown(l) == Decimal(Count(l)) + Suffix(l)
  {
    hide Decimal;
  }

  /** What is printed for an age, all in all. Without an instant it is a dash; the unit is
      m, h or d; one day is "yesterday". */
  lemma PrintedExact(secs: nat)
    ensures Shown(LabelOf(None, 0)) == "—"
    ensures var text := Shown(OfSeconds(secs));
            && (secs < 45 ==> text == "just now")
            && (45 <= secs < 3570 ==>
                  exists n :: 1 <= n <= 59 && 60 * n - 30 <= secs < 60 * n + 30 && text == Decimal(n) + "m ago")
            && (3570 <= secs < 84570 ==>
                  exists n :: 1 <= n <= 23 && 3600 * n - 1830 <= secs < 3600 * n + 1770 && text == Decimal(n) + "h ago")
            && (84570 <= secs < 127770 ==> text == "yesterday")
            && (127770 <= secs ==>
                  exists n :: 2 <= n && 86400 * n - 45030 <= secs < 86400 * n + 41370 && text == Decimal(n) + "d ago")
  {
    var l := OfSeconds(secs);
    LabelIff(secs, l);
    hide OfSeconds, Decimal;
    match l
    case Minutes(n) => assert 1 <= n <= 59 && Shown(l) == Decimal(n) + "m ago";
    case Hours(n) => assert 1 <= n <= 23 && Shown(l) == Decimal(n) + "h ago";
    case Days(n) => assert 2 <= n && Shown(l) == Decimal(n) + "d ago";
    case _ =>
  }
}
