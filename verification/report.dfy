/**
 * The validator's result: three message lists (errors, warnings, info), each
 * message carrying the prefix of its list. `Report` is the value of that
 * state; `ValidationResult` is the object the validation passes update.
 */
module Reports {

  // ---- Decimal rendering of counts and ids ---------------------------------------

  function DigitChar(d: nat): char
    requires d < 10
  {
    "0123456789"[d]
  }

  predicate IsDigit(c: char) {
    '0' <= c <= '9'
  }

  /** The decimal text of n, as `str(n)` renders a non-negative integer. */
  function NatToString(n: nat): (s: string)
    ensures |s| >= 1
    ensures forall i :: 0 <= i < |s| ==> IsDigit(s[i])
    decreases n
  {
    if n < 10 then [DigitChar(n)] else NatToString(n / 10) + [DigitChar(n % 10)]
  }

  /** The number a string of decimal digits denotes. */
  function DecimalValue(s: string): int
    requires forall i :: 0 <= i < |s| ==> IsDigit(s[i])
  {
    if s == [] then 0
    else 10 * DecimalValue(s[..|s| - 1]) + (s[|s| - 1] as int - '0' as int)
  }

  /** Reading the rendered text back gives the number: no two counts render alike. */
  lemma {:induction false} NatToStringRoundTrip(n: nat)
    ensures DecimalValue(NatToString(n)) == n
    decreases n
  {
    var s := NatToString(n);
    if n >= 10 {
      NatToStringRoundTrip(n / 10);
      assert s[..|s| - 1] == NatToString(n / 10);
    }
  }

  // ---- Capitalisation of entity-type names ---------------------------------------

  function UpperAscii(c: char): char {
    if 'a' <= c <= 'z' then (c as int - 32) as char else c
  }

  function LowerAscii(c: char): char {
    if 'A' <= c <= 'Z' then (c as int + 32) as char else c
  }

  /** `str.capitalize` on ASCII text: first character upper case, the rest lower case. */
  function Capitalize(s: string): (r: string)
    ensures |r| == |s|
  {
    if s == [] then [] else [UpperAscii(s[0])] + seq(|s| - 1, i requires 0 <= i < |s| - 1 => LowerAscii(s[i + 1]))
  }

  /**
   * Capitalizing changes case only: the first character is not lower case
   * (a lower-case letter there becomes upper case) and no later character is upper case.
   */
  lemma CapitalizeCases(s: string)
    ensures forall i :: 0 <= i < |s| ==> LowerAscii(Capitalize(s)[i]) == LowerAscii(s[i])
    ensures s != [] ==> !('a' <= Capitalize(s)[0] <= 'z')
    ensures s != [] && 'a' <= s[0] <= 'z' ==> 'A' <= Capitalize(s)[0] <= 'Z'
    ensures forall i :: 1 <= i < |s| ==> !('A' <= Capitalize(s)[i] <= 'Z')
  {
  }

  // ---- The result as a value -----------------------------------------------------

  datatype Report = Report(errors: seq<string>, warnings: seq<string>, info: seq<string>)
  {
    function AddError(message: string): Report {
      this.(errors := errors + ["ERROR: " + message])
    }

    function AddWarning(message: string): Report {
      this.(warnings := warnings + ["WARNING: " + message])
    }

    function AddInfo(message: string): Report {
      this.(info := info + ["INFO: " + message])
    }

    /** This report followed by the messages of `later`, list by list. */
    function Then(later: Report): Report {
      Report(errors + later.errors, warnings + later.warnings, info + later.info)
    }

    predicate IsValid() {
      |errors| == 0
    }
  }

  const EmptyReport := Report([], [], [])

  /** Appending a message after a concatenation appends it to the later part. */
  lemma ThenAdd(r: Report, s: Report, message: string)
    ensures r.Then(s).AddError(message) == r.Then(s.AddError(message))
    ensures r.Then(s).AddWarning(message) == r.Then(s.AddWarning(message))
    ensures r.Then(s).AddInfo(message) == r.Then(s.AddInfo(message))
  {
    assert (r.errors + s.errors) + ["ERROR: " + message] == r.errors + (s.errors + ["ERROR: " + message]);
    assert (r.warnings + s.warnings) + ["WARNING: " + message] == r.warnings + (s.warnings + ["WARNING: " + message]);
    assert (r.info + s.info) + ["INFO: " + message] == r.info + (s.info + ["INFO: " + message]);
  }

  lemma ThenEmpty(r: Report)
    ensures r.Then(EmptyReport) == r
    ensures EmptyReport.Then(r) == r
  {
    assert r.errors + [] == r.errors;
    assert r.warnings + [] == r.warnings;
    assert r.info + [] == r.info;
  }

  // ---- The result as an object ---------------------------------------------------

  /** The accumulating result: three lists, each only ever appended to. */
  class ValidationResult {
    var errors: seq<string>
    var warnings: seq<string>
    var info: seq<string>

    /** The three lists as a value. */
    function State(): Report
      reads this
    {
      Report(errors, warnings, info)
    }

    /** A result with no message in any list. */
    constructor ()
      ensures errors == [] && warnings == [] && info == []
      ensures State() == EmptyReport
    {
      errors := [];
      warnings := [];
      info := [];
    }

    /** Appends `"ERROR: " + message` to the errors; the other lists are unchanged. */
    method AddError(message: string)
      modifies this
      ensures errors == old(errors) + ["ERROR: " + message]
      ensures warnings == old(warnings) && info == old(info)
      ensures State() == old(State()).AddError(message)
    {
      errors := errors + ["ERROR: " + message];
    }

    /** Appends `"WARNING: " + message` to the warnings; the other lists are unchanged. */
    method AddWarning(message: string)
      modifies this
      ensures warnings == old(warnings) + ["WARNING: " + message]
      ensures errors == old(errors) && info == old(info)
      ensures State() == old(State()).AddWarning(message)
    {
      warnings := warnings + ["WARNING: " + message];
    }

    /** Appends `"INFO: " + message` to the info lines; the other lists are unchanged. */
    method AddInfo(message: string)
      modifies this
      ensures info == old(info) + ["INFO: " + message]
      ensures errors == old(errors) && warnings == old(warnings)
      ensures State() == old(State()).AddInfo(message)
    {
      info := info + ["INFO: " + message];
    }

    /** Validation passed: no error was added, whatever the warnings and info lines. */
    function IsValid(): (valid: bool)
      reads this
      ensures valid <==> errors == []
      ensures valid <==> State().IsValid()
    {
      |errors| == 0
    }
  }
}
