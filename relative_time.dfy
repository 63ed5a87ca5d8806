/** The relative time periods (`24h`, `7d`, `30m`, `2w`) the transactions
    and logs commands accept for `--last`: a decimal count and a unit, in
    either case. The clock and the timestamp formatting are parameters. */
module RelativeTime {
  import opened Wrappers
  import opened Text

  predicate IsUnit(c: char) {
    c == 'm' || c == 'h' || c == 'd' || c == 'w'
  }

  /** The length of the `timedelta` of one unit, in seconds. */
  function UnitSeconds(u: char): (n: nat)
    requires IsUnit(u)
    ensures n > 0 && n % 60 == 0
  {
    match u
    case 'm' => 60
    case 'h' => 3600
    case 'd' => 86400
    case 'w' => 604800
  }

  /** What the pattern is matched against: the lower-cased argument, where
      the final `$` also matches in front of one trailing newline. */
  function MatchTarget(s: string): string {
    var t := Lower(s);
    if |t| > 0 && t[|t| - 1] == '\n' then t[..|t| - 1] else t
  }

  /** `re.match(r'^(\d+)([hdmw])$', s.lower())` and the delta it selects, in
      seconds; `None` when the argument does not match. */
  function RelativeSeconds(s: string): Option<nat> {
    var t := MatchTarget(s);
    if |t| >= 2 && AllDigits(t[..|t| - 1]) && IsUnit(t[|t| - 1]) then
      Some(DigitsValue(t[..|t| - 1]) * UnitSeconds(t[|t| - 1]))
    else None
  }

  /** `_parse_relative_time`: the formatted moment `now` minus the period,
      or the `ValueError` for an argument that does not match. */
  function ParseRelativeTime(s: string, now: int, render: int -> string): (r: Result<string>)
    ensures r.Ok? <==> RelativeSeconds(s).Some?
    ensures r.Ok? ==> r.value == render(now - RelativeSeconds(s).value)
  {
    match RelativeSeconds(s)
    case None => Err("Invalid time format: " + s + ". Use format like 24h, 7d, 30m")
    case Some(delta) => Ok(render(now - delta))
  }

  /** Lower-casing leaves a string alone when it leaves each character alone. */
  lemma LowerAsIs(s: string, t: string)
    requires |s| == |t| && forall i :: 0 <= i < |s| ==> LowerChar(s[i]) == t[i]
    ensures Lower(s) == t
  {
  }

  lemma LowerDigits(s: string)
    requires AllDigits(s)
    ensures Lower(s) == s
  {
    LowerAsIs(s, s);
  }

  lemma {:induction false} DigitsThenUnit(d: string, u: char, c: char)
    requires |d| > 0 && AllDigits(d) && IsUnit(u) && LowerChar(c) == u
    ensures RelativeSeconds(d + [c]) == Some(DigitsValue(d) * UnitSeconds(u))
  {
    var s, t := d + [c], d + [u];
    LowerAsIs(s, t);
    assert t[..|t| - 1] == d;
  }

  /** Every count followed by a unit letter, in either case, is accepted and
      stands for that many units. */
  lemma RelativeRoundTrip(n: nat, u: char)
    requires IsUnit(u)
    ensures RelativeSeconds(NatToString(n) + [u]) == Some(n * UnitSeconds(u))
    ensures RelativeSeconds(NatToString(n) + [UpperChar(u)]) == Some(n * UnitSeconds(u))
  {
    var d := NatToString(n);
    DigitsThenUnit(d, u, u);
    DigitsThenUnit(d, u, UpperChar(u));
  }

  /** A bare count without a unit is rejected. */
  lemma RelativeNeedsUnit(n: nat)
    ensures RelativeSeconds(NatToString(n)) == None
  {
    var d := NatToString(n);
    LowerDigits(d);
    assert IsDigit(d[|d| - 1]);
  }

  /** One trailing newline is tolerated, as Python's `$` allows. */
  lemma RelativeTrailingNewline(s: string)
    requires |s| == 0 || s[|s| - 1] != '\n'
    ensures RelativeSeconds(s + "\n") == RelativeSeconds(s)
  {
    hide Lower, AllDigits, DigitsValue, UnitSeconds;
    var ls, s1 := Lower(s), s + "\n";
    var t1 := Lower(s1);
    assert t1 == ls + "\n" by {
      assert forall i :: 0 <= i < |s| ==> s1[i] == s[i];
    }
    assert t1[..|t1| - 1] == ls;
  }
}
