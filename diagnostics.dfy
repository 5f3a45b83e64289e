/** The diagnostics the plugin reports through PackagePlugin's `Diagnostics`
    sink, as structured values. Each one has a severity and the exact text the
    plugin prints; the text of a run diagnostic names the module or package it
    is about and, for a failing run, the exit code in decimal. */
module Diagnostics {
  import opened Wrappers

  /** Swift's Int32, the type of `Process.terminationStatus`. */
  newtype int32 = x: int | -0x8000_0000 <= x < 0x8000_0000

  /** The three severities of the diagnostics sink. */
  datatype Severity = Remark | Warning | Error

  datatype Diagnostic =
    | CachePathNotAllowed
    | NotSourceModule(targetName: string)
    | FinishedRunning(scope: string)
    | GotUncaughtSignal(scope: string)
    | StoppedUnexpectedly(scope: string)
    | ExitCodeError(status: int32, scope: string)
  {
    function Level(): Severity {
      match this
      case FinishedRunning(_) => Remark
      case NotSourceModule(_) => Warning
      case _ => Error
    }

    /** The module or package a run diagnostic is about; None for the two
        diagnostics that are not about one run. */
    function Scope(): Option<string> {
      match this
      case CachePathNotAllowed => None
      case NotSourceModule(_) => None
      case FinishedRunning(scope) => Some(scope)
      case GotUncaughtSignal(scope) => Some(scope)
      case StoppedUnexpectedly(scope) => Some(scope)
      case ExitCodeError(_, scope) => Some(scope)
    }

    function Message(): string {
      match this
      case CachePathNotAllowed =>
        "Caching is managed by the plugin and so setting `--cache-path` is not allowed"
      case NotSourceModule(name) =>
        "Target '" + name + "' is not a source module; skipping it"
      case FinishedRunning(scope) =>
        "Finished running in " + scope
      case GotUncaughtSignal(scope) =>
        "Got uncaught signal while running in " + scope
      case StoppedUnexpectedly(scope) =>
        "Stopped running in " + scope + " due to unexpected termination reason"
      case ExitCodeError(status, scope) =>
        EXIT_CODE_PREFIX + Decimal(status as int) + " in " + scope
    }
  }

  /** The fixed opening of the exit-code error; the source writes it as a
      multi-line string literal whose line break is escaped away. */
  const EXIT_CODE_PREFIX := "Command found error violations or unsuccessfully stopped running with exit code "

  // ---------------------------------------------------------------------------
  // Decimal rendering of integers, as Swift's string interpolation of an Int32

  predicate IsDigit(c: char) {
    '0' <= c <= '9'
  }

  predicate AllDigits(s: string) {
    forall i | 0 <= i < |s| :: IsDigit(s[i])
  }

  function DigitChar(d: nat): (c: char)
    requires d < 10
    ensures IsDigit(c) && c as int - '0' as int == d
  {
    ('0' as int + d) as char
  }

  /** The digits of n, most significant first, without leading zeros. */
  function NatDecimal(n: nat): (s: string)
    ensures |s| > 0 && AllDigits(s)
    ensures |s| > 1 ==> s[0] != '0'
    decreases n
  {
    if n < 10 then [DigitChar(n)] else NatDecimal(n / 10) + [DigitChar(n % 10)]
  }

  /** n in decimal, with a leading '-' when negative. */
  function Decimal(n: int): string {
    if n < 0 then "-" + NatDecimal(-n) else NatDecimal(n)
  }

  /** The decimal rendering is an optional '-' followed by digits. */
  predicate WellFormedDecimal(s: string) {
    if |s| > 0 && s[0] == '-' then |s| > 1 && AllDigits(s[1..]) else |s| > 0 && AllDigits(s)
  }

  /** The value of a string of digits read most significant first. */
  function DigitsValue(s: string): nat
    requires AllDigits(s)
  {
    if s == [] then 0 else DigitsValue(s[..|s| - 1]) * 10 + (s[|s| - 1] as int - '0' as int)
  }

  /** Reads back a well-formed decimal rendering. */
  function ReadDecimal(s: string): int
    requires WellFormedDecimal(s)
  {
    if s[0] == '-' then -(DigitsValue(s[1..]) as int) else DigitsValue(s)
  }

  lemma {:induction false} NatDecimalValue(n: nat)
    ensures DigitsValue(NatDecimal(n)) == n
    decreases n
  {
    if n >= 10 {
      var s := NatDecimal(n);
      assert s[..|s| - 1] == NatDecimal(n / 10);
      NatDecimalValue(n / 10);
    }
  }

  /** Reading the rendering back gives the number: the text of an exit-code
      error identifies the exit code. */
  lemma DecimalRoundTrip(n: int)
    ensures WellFormedDecimal(Decimal(n))
    ensures ReadDecimal(Decimal(n)) == n
  {
    if n < 0 {
      assert Decimal(n)[1..] == NatDecimal(-n);
      NatDecimalValue(-n);
    } else {
      NatDecimalValue(n);
    }
  }

  lemma DecimalInjective(a: int, b: int)
    requires Decimal(a) == Decimal(b)
    ensures a == b
  {
    DecimalRoundTrip(a);
    DecimalRoundTrip(b);
  }

  // ---------------------------------------------------------------------------
  // The printed text determines the diagnostic

  /** Two strings that agree around a middle part agree in the middle. */
  lemma SameFrame(p: string, a: string, b: string, q: string)
    requires p + a + q == p + b + q
    ensures a == b
  {
    assert |a| == |b|;
    assert a == (p + a + q)[|p|..|p| + |a|];
    assert b == (p + b + q)[|p|..|p| + |b|];
  }

  /** The index of the first space in s, or |s| when there is none. */
  function FirstSpace(s: string): (i: nat)
    ensures i <= |s|
  {
    if s == [] || s[0] == ' ' then 0 else 1 + FirstSpace(s[1..])
  }

  lemma {:induction false} FirstSpaceAfter(x: string, u: string)
    requires forall k | 0 <= k < |x| :: x[k] != ' '
    ensures FirstSpace(x + (" " + u)) == |x|
  {
    if x != [] {
      assert (x + (" " + u))[1..] == x[1..] + (" " + u);
      FirstSpaceAfter(x[1..], u);
    }
  }

  lemma NoSpaceInDecimal(x: string)
    requires WellFormedDecimal(x)
    ensures forall k | 0 <= k < |x| :: x[k] != ' '
  {
    forall k | 0 <= k < |x|
      ensures x[k] != ' '
    {
      if x[0] == '-' && k > 0 {
        assert x[k] == x[1..][k - 1];
      }
    }
  }

  /** A decimal rendering followed by a space-led suffix splits in one way only,
      because a rendering holds no space. */
  lemma SplitAfterDecimal(p: string, x: string, y: string, u: string, v: string)
    requires WellFormedDecimal(x) && WellFormedDecimal(y)
    requires p + x + (" " + u) == p + y + (" " + v)
    ensures x == y && u == v
  {
    var m := p + x + (" " + u);
    assert m[|p|..] == x + (" " + u);
    assert m[|p|..] == y + (" " + v);
    NoSpaceInDecimal(x);
    NoSpaceInDecimal(y);
    FirstSpaceAfter(x, u);
    FirstSpaceAfter(y, v);
    assert x == m[|p|..|p| + |x|];
    assert y == m[|p|..|p| + |y|];
    assert u == m[|p| + |x| + 1..];
    assert v == m[|p| + |y| + 1..];
  }

  /** The text of an exit-code error determines both the exit code and the
      module or package it names. */
  lemma ExitCodeMessageDetermines(s1: int32, l1: string, s2: int32, l2: string)
    requires ExitCodeError(s1, l1).Message() == ExitCodeError(s2, l2).Message()
    ensures s1 == s2 && l1 == l2
  {
    DecimalRoundTrip(s1 as int);
    DecimalRoundTrip(s2 as int);
    assert ExitCodeError(s1, l1).Message() == EXIT_CODE_PREFIX + Decimal(s1 as int) + (" " + ("in " + l1));
    assert ExitCodeError(s2, l2).Message() == EXIT_CODE_PREFIX + Decimal(s2 as int) + (" " + ("in " + l2));
    SplitAfterDecimal(EXIT_CODE_PREFIX, Decimal(s1 as int), Decimal(s2 as int), "in " + l1, "in " + l2);
    DecimalInjective(s1 as int, s2 as int);
    SameFrame("in ", l1, l2, "");
  }

  /** t occurs in s starting at index i. */
  predicate OccursAt(s: string, t: string, i: int) {
    0 <= i <= |s| - |t| && s[i..i + |t|] == t
  }

  /** The text of every diagnostic about one run names the module or package. */
  lemma RunMessageNamesScope(d: Diagnostic)
    requires d.Scope().Some?
    ensures exists i :: OccursAt(d.Message(), d.Scope().value, i)
  {
    var m, l := d.Message(), d.Scope().value;
    var i := match d
      case FinishedRunning(_) => |"Finished running in "|
      case GotUncaughtSignal(_) => |"Got uncaught signal while running in "|
      case StoppedUnexpectedly(_) => |"Stopped running in "|
      case ExitCodeError(s, _) => |EXIT_CODE_PREFIX + Decimal(s as int) + " in "|;
    assert OccursAt(m, l, i);
  }
}
