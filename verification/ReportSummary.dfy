/** What the handler counts over a whole simulation, and what the summary makes of it. */
module ReportSummary {
  import opened Tlmx
  import opened Report

  // ---------------------------------------------------------------------------
  // Counts.
  // ---------------------------------------------------------------------------

  /** The kernel's counters: reports by severity. */
  datatype Tally = Tally(infos: nat, warnings: nat, errors: nat, fatals: nat)

  /**
   The kernel's counters, the handler's counter for each nonwarning, and the adjustments, which are of
   type size_t.
   */
  datatype Counts = Counts(
    kernel: Tally,
    renamed: seq<nat>,
    expectedWarnings: uint64,
    unexpectedWarnings: uint64,
    expectedErrors: uint64,
    unexpectedErrors: uint64)

  const NO_COUNTS: Counts := Counts(Tally(0, 0, 0, 0), [0, 0, 0], 0, 0, 0, 0)

  /** A number as an unsigned one of 64 bits: x % TWO_TO_THE_64, by steps of the modulus. */
  function Wrap(x: int): uint64
    decreases if x < 0 then -x else x
  {
    if x < 0 then if x < -TWO_TO_THE_64 then Wrap(x + TWO_TO_THE_64) else x + TWO_TO_THE_64
    else if x < TWO_TO_THE_64 then x
    else Wrap(x - TWO_TO_THE_64)
  }

  lemma {:induction false} WrapIsRemainder(x: int)
    ensures Wrap(x) == x % TWO_TO_THE_64
    decreases if x < 0 then -x else x
  {
    if -TWO_TO_THE_64 <= x < TWO_TO_THE_64 {
    } else {
      WrapIsRemainder(if x < 0 then x + TWO_TO_THE_64 else x - TWO_TO_THE_64);
    }
  }

  lemma {:induction false} WrapOnce(x: int)
    ensures Wrap(x + TWO_TO_THE_64) == Wrap(x)
  {
  }

  /** Wrapping as one goes is wrapping at the end. */
  lemma {:induction false} WrapSum(x: int, y: int)
    ensures Wrap(Wrap(x) + y) == Wrap(x + y)
    ensures Wrap(y - Wrap(x)) == Wrap(y - x)
    decreases if x < 0 then -x else x
  {
    if 0 <= x < TWO_TO_THE_64 {
    } else if x < 0 {
      if x < -TWO_TO_THE_64 {
        WrapSum(x + TWO_TO_THE_64, y);
      }
      WrapOnce(x + y);
      WrapOnce(y - (x + TWO_TO_THE_64));
    } else {
      WrapSum(x - TWO_TO_THE_64, y);
      WrapOnce(x - TWO_TO_THE_64 + y);
      WrapOnce(y - x);
    }
  }

  lemma WrapTwoSums(x: int, y: int)
    ensures Wrap(Wrap(x) + Wrap(y)) == Wrap(x + y)
  {
    WrapSum(x, Wrap(y));
    WrapSum(y, x);
  }

  function Total(counts: seq<nat>): nat {
    if counts == [] then 0 else counts[0] + Total(counts[1..])
  }

  /** One more under entry i of the nonwarnings. */
  function Raised(counts: seq<nat>, i: Option<nat>): (r: seq<nat>)
    ensures |r| == |counts|
  {
    if i.Some? && i.value < |counts| then counts[i.value := counts[i.value] + 1] else counts
  }

  /** The counter that a report raises. */
  function CounterOf(r: Source): (h: Option<nat>)
    ensures h.Some? ==> r.severity.Warning? && h.value < |NONWARNINGS|
  {
    if r.severity.Warning? then Hit(r) else None
  }

  /** What a simulation does to the counts. */
  datatype Event =
    | Reported(r: Source)
    | AdjustExpectedWarnings(amount: int)
    | AdjustUnexpectedWarnings(amount: int)
    | AdjustExpectedErrors(amount: int)
    | AdjustUnexpectedErrors(amount: int)

  function One(b: bool): nat {
    if b then 1 else 0
  }

  /** One more report of this severity. */
  function Told(k: Tally, severity: Severity): Tally {
    Tally(k.infos + One(severity.Info?), k.warnings + One(severity.Warning?),
          k.errors + One(severity.Error?), k.fatals + One(severity.Fatal?))
  }

  /** The adjustments of unexpected counts change the expected ones: so the code has it. */
  function Count(c: Counts, e: Event): Counts {
    match e
    case Reported(r) => c.(kernel := Told(c.kernel, r.severity), renamed := Raised(c.renamed, CounterOf(r)))
    case AdjustExpectedWarnings(n) => c.(expectedWarnings := Wrap(c.expectedWarnings + n))
    case AdjustUnexpectedWarnings(n) => c.(expectedWarnings := Wrap(c.expectedWarnings + n))
    case AdjustExpectedErrors(n) => c.(expectedErrors := Wrap(c.expectedErrors + n))
    case AdjustUnexpectedErrors(n) => c.(expectedErrors := Wrap(c.expectedErrors + n))
  }

  // ---------------------------------------------------------------------------
  // The handler and the summary.
  // ---------------------------------------------------------------------------

  function WithoutRunt(text: string): string {
    match Find(text, ": -: ")
    case None => text
    case Some(p) => Replace(text, p, 5, ":")
  }

  /** The text that a report is shown as. */
  function Shown(r: Source): string {
    match r.severity
    case Info => WithoutRunt(Reclassified(Compose(r), "INFO", INFO_NAMES).0)
    case Warning => Reclassified(Compose(r), "WARNING", NONWARNINGS).0
    case _ => Compose(r)
  }

  /** The lines of the summary for nonwarnings, from entry i on: a number and a name, none for a number of 0. */
  function Listed(counts: seq<nat>, names: seq<string>, i: nat): seq<(nat, string)>
    requires |counts| == |names| && i <= |counts|
    decreases |counts| - i
  {
    if i == |counts| then []
    else (if counts[i] == 0 then [] else [(counts[i], names[i])]) + Listed(counts, names, i + 1)
  }

  /** What the summary prints for warnings, in one subtraction. */
  function PrintedWarnings(c: Counts): uint64 {
    Wrap(c.kernel.warnings - Total(c.renamed) + c.unexpectedWarnings - c.expectedWarnings)
  }

  function PrintedErrors(c: Counts): uint64 {
    Wrap(c.kernel.errors + c.unexpectedErrors - c.expectedErrors)
  }

  /** The verdict: passed when no errors are left and no fatalities. */
  predicate Passes(c: Counts) {
    Wrap(c.kernel.fatals + PrintedErrors(c)) == 0
  }

  class Handler {
    var nonwarnings: seq<nat>
    var expectedWarningCount: uint64
    var unexpectedWarningCount: uint64
    var expectedErrorCount: uint64
    var unexpectedErrorCount: uint64

    /** Together with what the kernel has counted. */
    function View(kernel: Tally): Counts
      reads this
    {
      Counts(kernel, nonwarnings, expectedWarningCount, unexpectedWarningCount, expectedErrorCount, unexpectedErrorCount)
    }

    constructor ()
      ensures View(NO_COUNTS.kernel) == NO_COUNTS
    {
      nonwarnings := [0, 0, 0];
      expectedWarningCount, unexpectedWarningCount, expectedErrorCount, unexpectedErrorCount := 0, 0, 0, 0;
    }

    /** The branch for informational messages. */
    method HandleInfo(r: Source) returns (text: string)
      requires r.severity.Info?
      ensures text == Shown(r)
    {
      var hit;
      text, hit := Reclassify(Compose(r), "INFO", INFO_NAMES);
      var runt := Find(text, ": -: ");
      if runt.Some? {
        text := Replace(text, runt.value, 5, ":");
      }
    }

    method Raise(counter: Option<nat>)
      requires counter.Some? ==> counter.value < |nonwarnings|
      modifies this`nonwarnings
      ensures nonwarnings == Raised(old(nonwarnings), counter)
    {
      if counter.Some? {
        nonwarnings := nonwarnings[counter.value := nonwarnings[counter.value] + 1];
      }
    }

    /** The branch for warnings. */
    method HandleWarning(r: Source) returns (text: string)
      requires r.severity.Warning? && |nonwarnings| == |NONWARNINGS|
      modifies this`nonwarnings
      ensures text == Shown(r)
      ensures nonwarnings == Raised(old(nonwarnings), Hit(r))
    {
      var hit;
      text, hit := Reclassify(Compose(r), "WARNING", NONWARNINGS);
      Raise(hit);
    }

    /** report_handler, as far as the text and the counters go; the kernel has counted the report already. */
    method ReportHandler(r: Source) returns (text: string)
      requires |nonwarnings| == |NONWARNINGS|
      modifies this`nonwarnings
      ensures text == Shown(r)
      ensures forall k :: View(Told(k, r.severity)) == Count(old(View(k)), Reported(r))
    {
      if r.severity.Info? {
        text := HandleInfo(r);
      } else if r.severity.Warning? {
        text := HandleWarning(r);
      } else {
        text := Compose(r);
      }
    }

    /** adjust_expected_warnings and its three siblings. */
    method Adjust(e: Event)
      requires !e.Reported?
      modifies this`expectedWarningCount, this`expectedErrorCount
      ensures forall k :: View(k) == Count(old(View(k)), e)
    {
      match e {
        case AdjustExpectedWarnings(n) => expectedWarningCount := Wrap(expectedWarningCount + n);
        case AdjustUnexpectedWarnings(n) => expectedWarningCount := Wrap(expectedWarningCount + n);
        case AdjustExpectedErrors(n) => expectedErrorCount := Wrap(expectedErrorCount + n);
        case AdjustUnexpectedErrors(n) => expectedErrorCount := Wrap(expectedErrorCount + n);
      }
    }

    /** How many warnings were counted under another name. */
    method Renamed() returns (total: nat)
      ensures total == Total(nonwarnings)
    {
      total := 0;
      for i := 0 to |nonwarnings|
        invariant total + Total(nonwarnings[i..]) == Total(nonwarnings)
      {
        assert nonwarnings[i..][1..] == nonwarnings[i + 1..];
        total := total + nonwarnings[i];
      }
    }

    /** The summary's lines for them. */
    method Lines(names: seq<string>) returns (named: seq<(nat, string)>)
      requires |nonwarnings| == |names|
      ensures named == Listed(nonwarnings, names, 0)
    {
      named := [];
      for i := 0 to |nonwarnings|
        invariant named + Listed(nonwarnings, names, i) == Listed(nonwarnings, names, 0)
      {
        if nonwarnings[i] == 0 {
          continue;
        }
        named := named + [(nonwarnings[i], names[i])];
      }
    }

    /** The counts that the summary prints, step by step in 64-bit arithmetic, and its verdict. */
    method Summary(kernel: Tally)
      returns (named: seq<(nat, string)>, warningCount: uint64, errorCount: uint64, exitCode: int)
      requires |nonwarnings| == |NONWARNINGS|
      ensures named == Listed(nonwarnings, NONWARNINGS, 0)
      ensures warningCount == PrintedWarnings(View(kernel)) && errorCount == PrintedErrors(View(kernel))
      ensures exitCode == if Passes(View(kernel)) then 0 else 1
    {
      var debugCount := Renamed();
      warningCount := Wrap(kernel.warnings - debugCount);
      errorCount := Wrap(kernel.errors);
      errorCount := Wrap(errorCount + Wrap(unexpectedErrorCount - expectedErrorCount));
      warningCount := Wrap(warningCount + Wrap(unexpectedWarningCount - expectedWarningCount));
      named := Lines(NONWARNINGS);
      exitCode := if Wrap(kernel.fatals + errorCount) == 0 then 0 else 1;
      WrapTwoSums(kernel.errors, unexpectedErrorCount - expectedErrorCount);
      WrapTwoSums(kernel.warnings - debugCount, unexpectedWarningCount - expectedWarningCount);
    }
  }

  // ---------------------------------------------------------------------------
  // The accounts over a whole simulation.
  // ---------------------------------------------------------------------------

  function AfterEvents(es: seq<Event>): Counts {
    if es == [] then NO_COUNTS else Count(AfterEvents(es[..|es| - 1]), es[|es| - 1])
  }

  predicate IsPlainWarning(e: Event) {
    e.Reported? && e.r.severity.Warning? && Classified(Body(e.r), NONWARNINGS, 0).None?
  }

  /** The warnings whose text carries none of the tags. */
  function PlainWarnings(es: seq<Event>): nat {
    if es == [] then 0 else PlainWarnings(es[..|es| - 1]) + One(IsPlainWarning(es[|es| - 1]))
  }

  function Infos(es: seq<Event>): nat {
    if es == [] then 0
    else
      var e := es[|es| - 1];
      Infos(es[..|es| - 1]) + One(e.Reported? && e.r.severity.Info?)
  }

  function Errors(es: seq<Event>): nat {
    if es == [] then 0
    else
      var e := es[|es| - 1];
      Errors(es[..|es| - 1]) + One(e.Reported? && e.r.severity.Error?)
  }

  function Fatals(es: seq<Event>): nat {
    if es == [] then 0
    else
      var e := es[|es| - 1];
      Fatals(es[..|es| - 1]) + One(e.Reported? && e.r.severity.Fatal?)
  }

  function WarningAdjustment(e: Event): int {
    match e
    case AdjustExpectedWarnings(n) => n
    case AdjustUnexpectedWarnings(n) => n
    case _ => 0
  }

  function AdjustedWarnings(es: seq<Event>): int {
    if es == [] then 0 else AdjustedWarnings(es[..|es| - 1]) + WarningAdjustment(es[|es| - 1])
  }

  function ErrorAdjustment(e: Event): int {
    match e
    case AdjustExpectedErrors(n) => n
    case AdjustUnexpectedErrors(n) => n
    case _ => 0
  }

  function AdjustedErrors(es: seq<Event>): int {
    if es == [] then 0 else AdjustedErrors(es[..|es| - 1]) + ErrorAdjustment(es[|es| - 1])
  }

  /** Every report is made with a time, or its substitute, before the severity word. */
  predicate Timed(es: seq<Event>) {
    forall i :: 0 <= i < |es| && es[i].Reported? ==> TimePrefix(es[i].r.time)
  }

  lemma {:induction false} TotalRaised(counts: seq<nat>, i: nat)
    requires i < |counts|
    ensures Total(Raised(counts, Some(i))) == Total(counts) + 1
  {
    if i == 0 {
      assert counts[0 := counts[0] + 1][1..] == counts[1..];
    } else {
      TotalRaised(counts[1..], i - 1);
      assert counts[i := counts[i] + 1][1..] == counts[1..][i - 1 := counts[i] + 1];
    }
  }

  /** What one event adds to the warnings that are not counted under another name. */
  lemma CountWarning(c: Counts, e: Event)
    requires |c.renamed| == |NONWARNINGS| && (e.Reported? ==> TimePrefix(e.r.time))
    ensures var d := Count(c, e);
            && |d.renamed| == |c.renamed|
            && d.kernel.warnings - Total(d.renamed) == c.kernel.warnings - Total(c.renamed) + One(IsPlainWarning(e))
            && d.unexpectedWarnings == c.unexpectedWarnings && d.unexpectedErrors == c.unexpectedErrors
  {
    if e.Reported? && e.r.severity.Warning? {
      WarningForm(e.r);
      if CounterOf(e.r).Some? {
        TotalRaised(c.renamed, CounterOf(e.r).value);
      }
    }
  }

  /**
   Of all warnings, those not counted under another name are the plain ones: the counters add up, and the
   summary's subtraction is of a smaller number from a larger. The unexpected counts are never anything but 0.
   */
  lemma {:induction false} WarningsAddUp(es: seq<Event>)
    requires Timed(es)
    ensures var c := AfterEvents(es);
            && |c.renamed| == |NONWARNINGS|
            && c.kernel.warnings == PlainWarnings(es) + Total(c.renamed)
            && c.unexpectedWarnings == 0 && c.unexpectedErrors == 0
  {
    if es == [] {
      assert Total([0, 0, 0]) == Total([0, 0]) == Total([0]) == 0;
    } else {
      WarningsAddUp(es[..|es| - 1]);
      CountWarning(AfterEvents(es[..|es| - 1]), es[|es| - 1]);
    }
  }

  lemma {:induction false} ErrorsAddUp(es: seq<Event>)
    ensures var k := AfterEvents(es).kernel; k.infos == Infos(es) && k.errors == Errors(es) && k.fatals == Fatals(es)
  {
    if es == [] {
    } else {
      ErrorsAddUp(es[..|es| - 1]);
    }
  }

  lemma CountAdjustments(c: Counts, e: Event, warnings: int, errors: int)
    requires c.expectedWarnings == Wrap(warnings) && c.expectedErrors == Wrap(errors)
    ensures Count(c, e).expectedWarnings == Wrap(warnings + WarningAdjustment(e))
    ensures Count(c, e).expectedErrors == Wrap(errors + ErrorAdjustment(e))
  {
    WrapSum(warnings, WarningAdjustment(e));
    WrapSum(errors, ErrorAdjustment(e));
  }

  /** The expected counts are the adjustments of either kind, expected and unexpected, up to wrap-around. */
  lemma {:induction false} AdjustmentsAddUp(es: seq<Event>)
    ensures AfterEvents(es).expectedWarnings == Wrap(AdjustedWarnings(es))
    ensures AfterEvents(es).expectedErrors == Wrap(AdjustedErrors(es))
  {
    if es == [] {
    } else {
      var front, e := es[..|es| - 1], es[|es| - 1];
      AdjustmentsAddUp(front);
      CountAdjustments(AfterEvents(front), e, AdjustedWarnings(front), AdjustedErrors(front));
      assert AfterEvents(es) == Count(AfterEvents(front), e);
      assert AdjustedWarnings(es) == AdjustedWarnings(front) + WarningAdjustment(e);
      assert AdjustedErrors(es) == AdjustedErrors(front) + ErrorAdjustment(e);
    }
  }

  lemma PrintedIs(es: seq<Event>)
    requires Timed(es)
    ensures PrintedWarnings(AfterEvents(es)) == Wrap(PlainWarnings(es) - AdjustedWarnings(es))
  {
    WarningsAddUp(es);
    AdjustmentsAddUp(es);
    WrapSum(AdjustedWarnings(es), PlainWarnings(es));
  }

  lemma OnlySmallNumbersStay(x: int)
    ensures Wrap(x) == x <==> 0 <= x < TWO_TO_THE_64
  {
  }

  /**
   The summary's number of warnings is right, the plain ones less the adjustments of either kind, exactly
   when that is a number it can print; with no adjustments it is the number of plain warnings.
   */
  lemma SummaryIsRight(es: seq<Event>)
    requires Timed(es) && PlainWarnings(es) < TWO_TO_THE_64
    ensures var wanted := PlainWarnings(es) - AdjustedWarnings(es);
            && (PrintedWarnings(AfterEvents(es)) == wanted <==> 0 <= wanted < TWO_TO_THE_64)
            && (AdjustedWarnings(es) == 0 ==> PrintedWarnings(AfterEvents(es)) == PlainWarnings(es))
  {
    PrintedIs(es);
    OnlySmallNumbersStay(PlainWarnings(es) - AdjustedWarnings(es));
  }

  lemma VerdictArithmetic(errors: int, fatals: int, adjusted: int)
    ensures Wrap(fatals + Wrap(errors + 0 - Wrap(adjusted))) == Wrap(errors + fatals - adjusted)
  {
    WrapSum(adjusted, errors);
    WrapSum(errors - adjusted, fatals);
  }

  lemma PassesIs(c: Counts, errors: nat, fatals: nat, adjusted: int)
    requires c.kernel.errors == errors && c.kernel.fatals == fatals
    requires c.unexpectedErrors == 0 && c.expectedErrors == Wrap(adjusted)
    ensures Passes(c) <==> Wrap(errors + fatals - adjusted) == 0
  {
    VerdictArithmetic(errors, fatals, adjusted);
  }

  /** All that the verdict depends on. */
  lemma ErrorAccounts(es: seq<Event>)
    requires Timed(es)
    ensures var c := AfterEvents(es);
            && c.kernel.errors == Errors(es) && c.kernel.fatals == Fatals(es)
            && c.unexpectedErrors == 0 && c.expectedErrors == Wrap(AdjustedErrors(es))
  {
    WarningsAddUp(es);
    ErrorsAddUp(es);
    AdjustmentsAddUp(es);
  }

  lemma VerdictWraps(es: seq<Event>)
    requires Timed(es)
    ensures Passes(AfterEvents(es)) <==> Wrap(Errors(es) + Fatals(es) - AdjustedErrors(es)) == 0
  {
    ErrorAccounts(es);
    PassesIs(AfterEvents(es), Errors(es), Fatals(es), AdjustedErrors(es));
  }

  /**
   The verdict adds fatalities and errors before it compares: passed exactly when left, which is what the
   adjustments leave of both, is a multiple of the modulus.
   */
  lemma VerdictIs(es: seq<Event>, left: int)
    requires Timed(es) && left == Errors(es) + Fatals(es) - AdjustedErrors(es)
    ensures Passes(AfterEvents(es)) <==> left % 0x1_0000_0000_0000_0000 == 0
  {
    VerdictWraps(es);
    WrapIsRemainder(left);
  }

  lemma OnlyZeroWrapsToZero(x: int)
    requires -TWO_TO_THE_64 < x < TWO_TO_THE_64
    ensures Wrap(x) == 0 <==> x == 0
  {
  }

  /**
   What the verdict is meant to say, no fatality and no more or fewer errors than adjusted for, it says unless
   as many fatalities were reported as errors are missing; so with adjustments within the errors it is right.
   */
  lemma VerdictIsRight(es: seq<Event>)
    requires Timed(es) && -TWO_TO_THE_64 < Errors(es) + Fatals(es) - AdjustedErrors(es) < TWO_TO_THE_64
    ensures (Passes(AfterEvents(es)) <==> Fatals(es) == 0 && Errors(es) == AdjustedErrors(es)) <==>
            !(Fatals(es) > 0 && AdjustedErrors(es) - Errors(es) == Fatals(es))
  {
    VerdictWraps(es);
    OnlyZeroWrapsToZero(Errors(es) + Fatals(es) - AdjustedErrors(es));
  }

  lemma OneExpectedOneFatal(es: seq<Event>)
    requires |es| == 2 && es[0] == AdjustExpectedErrors(1) && es[1].Reported? && es[1].r.severity.Fatal?
    ensures Fatals(es) == 1 && Errors(es) == 0 && AdjustedErrors(es) == 1
  {
    var first := es[..1];
    assert first[..0] == [];
    assert Fatals(first) == Errors(first) == 0 && AdjustedErrors(first) == 1;
  }

  /** One error expected, one fatality reported, and the verdict is that no errors were detected. */
  lemma FatalCanPass(es: seq<Event>)
    requires |es| == 2 && es[0] == AdjustExpectedErrors(1) && es[1].Reported? && es[1].r.severity.Fatal?
    requires Timed(es)
    ensures Fatals(es) == 1 && Passes(AfterEvents(es))
  {
    OneExpectedOneFatal(es);
    VerdictIs(es, 0);
  }
}
