/**
 * Validation of a selection before a calculation: each of the three tiers must
 * be selected and, when the custom time bracket is chosen, the custom number
 * of days must be greater than 3. Failures are reported as an ordered list of
 * messages, never as an exception.
 */
module Validation {
  import opened Wrappers
  import OptionTables

  const TimeMissingMessage := "Debe seleccionar un tiempo estimado"
  const CustomTimeInvalidMessage := "Debe especificar un tiempo válido mayor a 0 días"
  const UsePredefinedMessage := "Para tiempos de 3 días o menos, use las opciones predefinidas"
  const ComplexityMissingMessage := "Debe seleccionar un nivel de complejidad"
  const DefinitionMissingMessage := "Debe seleccionar un nivel de definición"

  /** The largest number of days the predefined time brackets cover. */
  const PredefinedTimeLimit: real := 3.0

  /** The result of `validateInputs`. */
  datatype ValidationResult = ValidationResult(isValid: bool, errors: seq<string>)

  /**
   * The arguments of `validateInputs`. An omitted or null `customTimeValue` is
   * `None`; an omitted `requiresCustomTime` is `false`.
   */
  datatype Selection = Selection(
    timeSelected: bool,
    complexitySelected: bool,
    definitionSelected: bool,
    customTimeValue: Option<real>,
    requiresCustomTime: bool
  )

  /** The checks, one per message. */
  datatype Check = TimeMissing | CustomTimeInvalid | UsePredefined | ComplexityMissing | DefinitionMissing

  /** The fixed order in which the checks report. */
  const CheckOrder: seq<Check> := [TimeMissing, CustomTimeInvalid, UsePredefined, ComplexityMissing, DefinitionMissing]

  function Message(c: Check): string
  {
    match c
    case TimeMissing => TimeMissingMessage
    case CustomTimeInvalid => CustomTimeInvalidMessage
    case UsePredefined => UsePredefinedMessage
    case ComplexityMissing => ComplexityMissingMessage
    case DefinitionMissing => DefinitionMissingMessage
  }

  /** The first position of `c` in `cs`. */
  function IndexOf(cs: seq<Check>, c: Check): (n: nat)
    requires c in cs
    ensures n < |cs| && cs[n] == c
    ensures forall k :: 0 <= k < n ==> cs[k] != c
  {
    if cs[0] == c then 0 else 1 + IndexOf(cs[1..], c)
  }

  /** The position of a check in `CheckOrder`. */
  function Rank(c: Check): (n: nat)
    ensures n < |CheckOrder| && CheckOrder[n] == c
  {
    assert c.TimeMissing? || c.CustomTimeInvalid? || c.UsePredefined? || c.ComplexityMissing? || c.DefinitionMissing?;
    IndexOf(CheckOrder, c)
  }

  /** JavaScript truthiness of the custom value: undefined, null and 0 are falsy. */
  predicate IsTruthy(v: Option<real>)
  {
    v.Some? && v.value != 0.0
  }

  /** The custom value is present and a positive number of days. */
  predicate HasPositiveCustomTime(s: Selection)
  {
    s.customTimeValue.Some? && s.customTimeValue.value > 0.0
  }

  /** When each check reports, stated for each check on its own. */
  predicate Violated(c: Check, s: Selection)
  {
    match c
    case TimeMissing => !s.timeSelected
    case CustomTimeInvalid => s.timeSelected && s.requiresCustomTime && !HasPositiveCustomTime(s)
    case UsePredefined =>
      s.timeSelected && s.requiresCustomTime && HasPositiveCustomTime(s)
      && s.customTimeValue.value <= PredefinedTimeLimit
    case ComplexityMissing => !s.complexitySelected
    case DefinitionMissing => !s.definitionSelected
  }

  /** The checks of `cs` that `s` violates, in the order of `cs`. */
  function ViolatedChecks(cs: seq<Check>, s: Selection): (r: seq<Check>)
    ensures |r| <= |cs|
    decreases |cs|
  {
    if cs == [] then []
    else (if Violated(cs[0], s) then [cs[0]] else []) + ViolatedChecks(cs[1..], s)
  }

  /** The checks a selection fails, in reporting order. */
  function FailedChecks(s: Selection): seq<Check>
  {
    ViolatedChecks(CheckOrder, s)
  }

  /** The message of each check of `cs`, in the same order. */
  function Messages(cs: seq<Check>): (msgs: seq<string>)
  {
    seq(|cs|, i requires 0 <= i < |cs| => Message(cs[i]))
  }

  /**
   * The messages `validateInputs` is to report for a selection: the message of
   * each violated check and nothing else, in the fixed check order, at most three.
   */
  function Reported(s: Selection): (msgs: seq<string>)
    ensures forall c {:trigger Violated(c, s)} :: Message(c) in msgs <==> Violated(c, s)
    ensures forall i :: 0 <= i < |msgs| ==> exists c :: Violated(c, s) && msgs[i] == Message(c)
    ensures forall i, j, c, d :: 0 <= i < j < |msgs| && msgs[i] == Message(c) && msgs[j] == Message(d) ==> Rank(c) < Rank(d)
    ensures |msgs| <= 3
  {
    var msgs := Messages(FailedChecks(s));
    MessagesOfFailedChecksMembers(s, msgs);
    MessagesOfFailedChecksOrdered(s, msgs);
    FailedChecksAtMostThree(s);
    msgs
  }

  /** A selection passes: all three tiers chosen and, if custom time is required, more than 3 days given. */
  predicate Acceptable(s: Selection)
  {
    s.timeSelected && s.complexitySelected && s.definitionSelected
    && (s.requiresCustomTime ==> s.customTimeValue.Some? && s.customTimeValue.value > PredefinedTimeLimit)
  }

  /**
   * `validateInputs`: collects the messages of the failed checks into a list,
   * at most one about time (the first that applies), then complexity, then
   * definition; valid exactly when the list is empty.
   */
  method ValidateInputs(
    timeSelected: bool,
    complexitySelected: bool,
    definitionSelected: bool,
    customTimeValue: Option<real>,
    requiresCustomTime: bool
  ) returns (v: ValidationResult)
    ensures v.errors == Reported(Selection(timeSelected, complexitySelected, definitionSelected, customTimeValue, requiresCustomTime))
    ensures v.isValid <==> Acceptable(Selection(timeSelected, complexitySelected, definitionSelected, customTimeValue, requiresCustomTime))
    ensures v.isValid <==> v.errors == []
  {
    ghost var s := Selection(timeSelected, complexitySelected, definitionSelected, customTimeValue, requiresCustomTime);
    var errors: seq<string> := [];
    if !timeSelected {
      errors := errors + [TimeMissingMessage];
    } else if requiresCustomTime {
      if !IsTruthy(customTimeValue) || customTimeValue.value <= 0.0 {
        errors := errors + [CustomTimeInvalidMessage];
      } else if customTimeValue.value <= PredefinedTimeLimit {
        errors := errors + [UsePredefinedMessage];
      }
    }
    assert errors == TimeMessages(s);
    if !complexitySelected {
      errors := errors + [ComplexityMissingMessage];
    }
    if !definitionSelected {
      errors := errors + [DefinitionMissingMessage];
    }
    assert errors == TimeMessages(s)
      + (if Violated(ComplexityMissing, s) then [ComplexityMissingMessage] else [])
      + (if Violated(DefinitionMissing, s) then [DefinitionMissingMessage] else []);
    ReportedUnfold(s);
    AcceptableIffNoFailures(s);
    v := ValidationResult(|errors| == 0, errors);
  }

  /** Filtering a list that starts with `c` keeps or drops `c`, then filters the rest. */
  lemma ViolatedChecksCons(c: Check, cs: seq<Check>, s: Selection)
    ensures ViolatedChecks([c] + cs, s) == (if Violated(c, s) then [c] else []) + ViolatedChecks(cs, s)
  {
    assert ([c] + cs)[1..] == cs;
  }

  /** The reported checks, grouped as time (at most one), complexity, definition. */
  lemma FailedChecksUnfold(s: Selection)
    ensures FailedChecks(s) ==
      (if Violated(TimeMissing, s) then [TimeMissing] else [])
      + ((if Violated(CustomTimeInvalid, s) then [CustomTimeInvalid] else [])
      + ((if Violated(UsePredefined, s) then [UsePredefined] else [])
      + ((if Violated(ComplexityMissing, s) then [ComplexityMissing] else [])
      + (if Violated(DefinitionMissing, s) then [DefinitionMissing] else []))))
  {
    var c4: seq<Check> := [DefinitionMissing];
    ViolatedChecksCons(DefinitionMissing, [], s);
    assert [DefinitionMissing] + [] == c4;
    ViolatedChecksCons(ComplexityMissing, c4, s);
    ViolatedChecksCons(UsePredefined, [ComplexityMissing] + c4, s);
    ViolatedChecksCons(CustomTimeInvalid, [UsePredefined] + ([ComplexityMissing] + c4), s);
    ViolatedChecksCons(TimeMissing, [CustomTimeInvalid] + ([UsePredefined] + ([ComplexityMissing] + c4)), s);
    assert CheckOrder == [TimeMissing] + ([CustomTimeInvalid] + ([UsePredefined] + ([ComplexityMissing] + c4)));
  }

  /** The time message a selection gets, if any: the first violated time check, in check order. */
  function TimeMessages(s: Selection): seq<string>
  {
    if Violated(TimeMissing, s) then [TimeMissingMessage]
    else if Violated(CustomTimeInvalid, s) then [CustomTimeInvalidMessage]
    else if Violated(UsePredefined, s) then [UsePredefinedMessage]
    else []
  }

  /** The reported messages: at most one about time, then complexity, then definition. */
  lemma ReportedUnfold(s: Selection)
    ensures Reported(s) ==
      TimeMessages(s)
      + (if Violated(ComplexityMissing, s) then [ComplexityMissingMessage] else [])
      + (if Violated(DefinitionMissing, s) then [DefinitionMissingMessage] else [])
  {
    FailedMessagesUnfold(s);
  }

  /** `ReportedUnfold` for the bare list of messages, out of sight of `Reported`'s own ensures. */
  lemma FailedMessagesUnfold(s: Selection)
    ensures Messages(FailedChecks(s)) ==
      TimeMessages(s)
      + (if Violated(ComplexityMissing, s) then [ComplexityMissingMessage] else [])
      + (if Violated(DefinitionMissing, s) then [DefinitionMissingMessage] else [])
  {
    FailedChecksUnfold(s);
  }

  /** A check is kept exactly when it is among those filtered and is violated. */
  lemma {:induction false} ViolatedChecksMembers(cs: seq<Check>, s: Selection, c: Check)
    ensures c in ViolatedChecks(cs, s) <==> c in cs && Violated(c, s)
  {
    if cs != [] {
      ViolatedChecksMembers(cs[1..], s, c);
      assert cs == [cs[0]] + cs[1..];
    }
  }

  /** Nothing is reported exactly when the selection is acceptable. */
  lemma AcceptableIffNoFailures(s: Selection)
    ensures Acceptable(s) <==> Reported(s) == []
  {
    if !Acceptable(s) {
      var c :| Violated(c, s);
      assert CheckOrder[Rank(c)] == c;
      ViolatedChecksMembers(CheckOrder, s, c);
    }
  }

  /** Distinct checks report distinct messages. */
  lemma MessageInjective(c: Check, d: Check)
    ensures Message(c) == Message(d) <==> c == d
  {
  }

  /** Filtering keeps the order of the checks: ranks stay strictly increasing. */
  lemma {:induction false} ViolatedChecksOrdered(cs: seq<Check>, s: Selection)
    requires forall i, j :: 0 <= i < j < |cs| ==> Rank(cs[i]) < Rank(cs[j])
    ensures forall i, j :: 0 <= i < j < |ViolatedChecks(cs, s)| ==>
      Rank(ViolatedChecks(cs, s)[i]) < Rank(ViolatedChecks(cs, s)[j])
  {
    if cs != [] {
      ViolatedChecksOrdered(cs[1..], s);
      var rest := ViolatedChecks(cs[1..], s);
      forall c | c in rest ensures Rank(cs[0]) < Rank(c) {
        ViolatedChecksMembers(cs[1..], s, c);
        var k :| 0 <= k < |cs[1..]| && cs[1..][k] == c;
        assert cs[k + 1] == c;
      }
    }
  }

  /** At most three checks fail: the time checks exclude each other. */
  lemma FailedChecksAtMostThree(s: Selection)
    ensures |FailedChecks(s)| <= 3
  {
    FailedChecksUnfold(s);
  }

  /** The messages of the failed checks are exactly the messages of the violated checks. */
  lemma MessagesOfFailedChecksMembers(s: Selection, msgs: seq<string>)
    requires |msgs| == |FailedChecks(s)|
    requires forall i :: 0 <= i < |msgs| ==> msgs[i] == Message(FailedChecks(s)[i])
    ensures forall c {:trigger Violated(c, s)} :: Message(c) in msgs <==> Violated(c, s)
    ensures forall i :: 0 <= i < |msgs| ==> exists c :: Violated(c, s) && msgs[i] == Message(c)
  {
    var fs := FailedChecks(s);
    forall i | 0 <= i < |msgs| ensures exists c :: Violated(c, s) && msgs[i] == Message(c) {
      ViolatedChecksMembers(CheckOrder, s, fs[i]);
      assert fs[i] in fs;
    }
    forall c ensures Message(c) in msgs <==> Violated(c, s) {
      assert CheckOrder[Rank(c)] == c;
      ViolatedChecksMembers(CheckOrder, s, c);
      if Message(c) in msgs {
        var i :| 0 <= i < |msgs| && msgs[i] == Message(c);
        MessageInjective(fs[i], c);
      }
      if Violated(c, s) {
        var i :| 0 <= i < |fs| && fs[i] == c;
        assert msgs[i] == Message(c);
      }
    }
  }

  /** The messages of the failed checks come in the fixed check order. */
  lemma MessagesOfFailedChecksOrdered(s: Selection, msgs: seq<string>)
    requires |msgs| == |FailedChecks(s)|
    requires forall i :: 0 <= i < |msgs| ==> msgs[i] == Message(FailedChecks(s)[i])
    ensures forall i, j, c, d :: 0 <= i < j < |msgs| && msgs[i] == Message(c) && msgs[j] == Message(d) ==> Rank(c) < Rank(d)
  {
    var fs := FailedChecks(s);
    ViolatedChecksOrdered(CheckOrder, s);
    forall i, j, c, d | 0 <= i < j < |msgs| && msgs[i] == Message(c) && msgs[j] == Message(d) ensures Rank(c) < Rank(d) {
      MessageInjective(fs[i], c);
      MessageInjective(fs[j], d);
    }
  }

  /** The checks about the time tier. */
  predicate IsTimeCheck(c: Check)
  {
    c == TimeMissing || c == CustomTimeInvalid || c == UsePredefined
  }

  /** The time checks are mutually exclusive: only the first reported check can be about time. */
  lemma TimeCheckOnlyFirst(s: Selection)
    ensures forall i :: 0 < i < |FailedChecks(s)| ==> !IsTimeCheck(FailedChecks(s)[i])
  {
    FailedChecksUnfold(s);
  }

  /**
   * The time message: "select a time" whenever time is not selected, whatever
   * the custom value; otherwise, with custom time required, "valid time greater
   * than 0" for a missing or non-positive value, "use the predefined options"
   * for a value in (0, 3], and nothing above 3; nothing when custom time is not
   * required.
   */
  lemma TimeMessageTable(s: Selection)
    ensures !s.timeSelected ==> FailedChecks(s)[0] == TimeMissing
    ensures s.timeSelected && s.requiresCustomTime && (s.customTimeValue.None? || s.customTimeValue.value <= 0.0)
      ==> FailedChecks(s)[0] == CustomTimeInvalid
    ensures s.timeSelected && s.requiresCustomTime && s.customTimeValue.Some? && 0.0 < s.customTimeValue.value <= 3.0
      ==> FailedChecks(s)[0] == UsePredefined
    ensures s.timeSelected && (!s.requiresCustomTime || (s.customTimeValue.Some? && s.customTimeValue.value > 3.0))
      ==> FailedChecks(s) == (if s.complexitySelected then [] else [ComplexityMissing])
                            + (if s.definitionSelected then [] else [DefinitionMissing])
  {
    FailedChecksUnfold(s);
  }

  /**
   * Every predefined time bracket lies within (0, 3] days, so entering one of
   * them as a custom time is answered with "use the predefined options".
   */
  lemma PredefinedTimeRejectedAsCustom(i: nat)
    requires i < |OptionTables.TimeOptions| && !OptionTables.TimeOptions[i].requiresCustomInput
    ensures Reported(Selection(true, true, true, Some(OptionTables.TimeOptions[i].value), true)) == [UsePredefinedMessage]
  {
    OptionTables.TimeOptionsShape();
    ReportedUnfold(Selection(true, true, true, Some(OptionTables.TimeOptions[i].value), true));
  }

  /** The source's test: every tier selected, no custom time. */
  method AllSelectedExample()
  {
    ReportedUnfold(Selection(true, true, true, None, false));
    var v := ValidateInputs(true, true, true, None, false);
    assert v.isValid && v.errors == [];
  }

  /** The source's test: nothing selected gives the three "select" messages. */
  method NothingSelectedExample()
  {
    ReportedUnfold(Selection(false, false, false, None, false));
    var v := ValidateInputs(false, false, false, None, false);
    assert !v.isValid && v.errors == [TimeMissingMessage, ComplexityMissingMessage, DefinitionMissingMessage];
  }

  /** The source's test: only complexity missing gives its message alone. */
  method ComplexityMissingExample()
  {
    ReportedUnfold(Selection(true, false, true, None, false));
    var v := ValidateInputs(true, false, true, None, false);
    assert !v.isValid && v.errors == [ComplexityMissingMessage];
  }

  /** The source's test of custom time: 5 days passes, 2 days and a missing value do not. */
  method CustomTimeExamples()
  {
    ReportedUnfold(Selection(true, true, true, Some(5.0), true));
    var v := ValidateInputs(true, true, true, Some(5.0), true);
    assert v.isValid && v.errors == [];
    ReportedUnfold(Selection(true, true, true, Some(2.0), true));
    v := ValidateInputs(true, true, true, Some(2.0), true);
    assert !v.isValid && v.errors == [UsePredefinedMessage];
    ReportedUnfold(Selection(true, true, true, None, true));
    v := ValidateInputs(true, true, true, None, true);
    assert !v.isValid && v.errors == [CustomTimeInvalidMessage];
  }
}
