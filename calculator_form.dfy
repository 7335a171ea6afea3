/**
  The calculator form: how typed text becomes field values, and the form state
  that each change event updates one field of.
*/
module CalculatorForm {
  import opened Types

  /** The defaults the form starts with and returns to when cleared. */
  function InitialFormData(): (f: FormData)
    ensures f.initialValue == 0.0 && f.monthlyValue == 0.0 && f.interestRate == 8.0
    ensures f.interestRatePeriod == "annual" && f.period == 10.0 && f.periodUnit == "years"
    ensures forall name :: Get(f, name).Number? ==> Get(f, name).n >= 0.0
  {
    FormData(0.0, 0.0, 8.0, "annual", 10.0, "years")
  }

  // ---------------------------------------------------------------------------
  // Currency text: typed digits are cents
  // ---------------------------------------------------------------------------

  /** An ASCII decimal digit (what a regular-expression `\d` matches). */
  predicate IsDigit(c: char)
  {
    '0' <= c <= '9'
  }

  function DigitValue(c: char): (v: nat)
    requires IsDigit(c)
    ensures v < 10
  {
    (c as int) - ('0' as int)
  }

  /** The text with every non-digit character removed, order kept. */
  function DigitsOnly(s: string): (d: string)
    ensures |d| <= |s|
    ensures forall i :: 0 <= i < |d| ==> IsDigit(d[i])
  {
    if s == [] then []
    else
      var c := s[|s| - 1];
      DigitsOnly(s[..|s| - 1]) + (if IsDigit(c) then [c] else [])
  }

  /** The number a string of decimal digits spells, most significant first. */
  function DigitsValue(d: string): nat
    requires forall i :: 0 <= i < |d| ==> IsDigit(d[i])
  {
    if d == [] then 0
    else 10 * DigitsValue(d[..|d| - 1]) + DigitValue(d[|d| - 1])
  }

  /**
    The value a currency field stores for the typed text: the digits read as a
    number of cents, or 0 when the text has no digit. It is never negative and
    always a whole number of cents.
  */
  function CurrencyValue(text: string): (v: real)
    ensures v >= 0.0
    ensures v * 100.0 == DigitsValue(DigitsOnly(text)) as real
  {
    var digits := DigitsOnly(text);
    if digits == [] then 0.0 else DigitsValue(digits) as real / 100.0
  }

  /** Removing non-digits distributes over concatenation. */
  lemma {:induction false} DigitsOnlyConcat(a: string, b: string)
    ensures DigitsOnly(a + b) == DigitsOnly(a) + DigitsOnly(b)
  {
    if b != [] {
      var b' := b[..|b| - 1];
      assert (a + b)[..|a + b| - 1] == a + b';
      DigitsOnlyConcat(a, b');
    } else {
      assert a + b == a;
    }
  }

  /** A digit string is left as it is. */
  lemma {:induction false} DigitsOnlyOfDigits(d: string)
    requires forall i :: 0 <= i < |d| ==> IsDigit(d[i])
    ensures DigitsOnly(d) == d
  {
    if d != [] {
      DigitsOnlyOfDigits(d[..|d| - 1]);
    }
  }

  /** Text without any digit is stripped to nothing. */
  lemma {:induction false} DigitsOnlyOfNonDigits(s: string)
    requires forall i :: 0 <= i < |s| ==> !IsDigit(s[i])
    ensures DigitsOnly(s) == []
  {
    if s != [] {
      DigitsOnlyOfNonDigits(s[..|s| - 1]);
    }
  }

  /** The stored value depends only on the digits of the text. */
  lemma CurrencyDependsOnDigits(s: string)
    ensures CurrencyValue(s) == CurrencyValue(DigitsOnly(s))
  {
    DigitsOnlyOfDigits(DigitsOnly(s));
  }

  /** Inserting a non-digit character anywhere leaves the stored value unchanged. */
  lemma NonDigitIgnored(a: string, c: char, b: string)
    requires !IsDigit(c)
    ensures CurrencyValue(a + [c] + b) == CurrencyValue(a + b)
  {
    assert [c][..0] == [];
    assert DigitsOnly([c]) == [];
    DigitsOnlyConcat(a + [c], b);
    DigitsOnlyConcat(a, [c]);
    DigitsOnlyConcat(a, b);
    assert DigitsOnly(a + [c] + b) == DigitsOnly(a + b);
  }

  /** Text with no digit at all (empty, separators, letters) stores 0. */
  lemma NoDigitsStoresZero(s: string)
    requires forall i :: 0 <= i < |s| ==> !IsDigit(s[i])
    ensures CurrencyValue(s) == 0.0
  {
    DigitsOnlyOfNonDigits(s);
  }

  /** Typing a digit shifts the value one place left and enters the digit as cents. */
  lemma AppendDigitShiftsCents(s: string, c: char)
    requires IsDigit(c)
    ensures CurrencyValue(s + [c]) == 10.0 * CurrencyValue(s) + DigitValue(c) as real / 100.0
  {
    assert (s + [c])[..|s + [c]| - 1] == s;
    var d := DigitsOnly(s + [c]);
    assert d == DigitsOnly(s) + [c];
    assert d[..|d| - 1] == DigitsOnly(s);
  }

  // ---------------------------------------------------------------------------
  // Number inputs: empty is 0, negative is clamped to 0
  // ---------------------------------------------------------------------------

  /**
    The value a number input stores for its text; `parsed` is the number the
    platform's float parser reads from that text.
  */
  function NumberValue(text: string, parsed: real): (v: real)
    ensures v >= 0.0
    ensures text == "" ==> v == 0.0
    ensures text != "" ==> v == (if parsed < 0.0 then 0.0 else parsed)
  {
    var processed := if text == "" then 0.0 else parsed;
    if processed < 0.0 then 0.0 else processed
  }

  // ---------------------------------------------------------------------------
  // Change events
  // ---------------------------------------------------------------------------

  /** The names of the form's controls. */
  datatype Field = InitialValue | MonthlyValue | InterestRate | InterestRatePeriod | Period | PeriodUnit

  /**
    A change of one control: its name, the text it now holds, and the number
    the platform's float parser reads from that text.
  */
  datatype ChangeEvent = ChangeEvent(name: Field, value: string, parsed: real)

  /** A field's content: the numeric fields hold numbers, the selects hold text. */
  datatype FieldValue = Number(n: real) | Text(s: string)

  predicate IsCurrencyField(name: Field)
  {
    name == InitialValue || name == MonthlyValue
  }

  /** The controls declared with input type "number" in the form. */
  predicate IsNumberInput(name: Field)
  {
    name == InterestRate || name == Period
  }

  /** Read one field of the record by name. */
  function Get(f: FormData, name: Field): FieldValue
  {
    match name
    case InitialValue => Number(f.initialValue)
    case MonthlyValue => Number(f.monthlyValue)
    case InterestRate => Number(f.interestRate)
    case InterestRatePeriod => Text(f.interestRatePeriod)
    case Period => Number(f.period)
    case PeriodUnit => Text(f.periodUnit)
  }

  /**
    The value a change event stores: currency text as cents, number text
    defaulted and clamped, select text as it is.
  */
  function ProcessedValue(e: ChangeEvent): (v: FieldValue)
    ensures v.Number? <==> IsCurrencyField(e.name) || IsNumberInput(e.name)
    ensures v.Number? ==> v.n >= 0.0
    ensures v.Text? ==> v.s == e.value
  {
    if IsCurrencyField(e.name) then Number(CurrencyValue(e.value))
    else if IsNumberInput(e.name) then Number(NumberValue(e.value, e.parsed))
    else Text(e.value)
  }

  /** The record after a change event: only the named field changes. */
  function ApplyChange(prev: FormData, e: ChangeEvent): (next: FormData)
    ensures Get(next, e.name) == ProcessedValue(e)
    ensures forall other :: other != e.name ==> Get(next, other) == Get(prev, other)
  {
    match e.name
    case InitialValue => prev.(initialValue := CurrencyValue(e.value))
    case MonthlyValue => prev.(monthlyValue := CurrencyValue(e.value))
    case InterestRate => prev.(interestRate := NumberValue(e.value, e.parsed))
    case InterestRatePeriod => prev.(interestRatePeriod := e.value)
    case Period => prev.(period := NumberValue(e.value, e.parsed))
    case PeriodUnit => prev.(periodUnit := e.value)
  }

  /** The record after a sequence of change events, in order. */
  function ApplyAll(f: FormData, events: seq<ChangeEvent>): FormData
  {
    if events == [] then f else ApplyChange(ApplyAll(f, events[..|events| - 1]), events[|events| - 1])
  }

  /**
    After any sequence of change events from the defaults, every numeric field
    is non-negative.
  */
  lemma {:induction false} NumericFieldsStayNonNegative(events: seq<ChangeEvent>)
    ensures var f := ApplyAll(InitialFormData(), events);
      f.initialValue >= 0.0 && f.monthlyValue >= 0.0 && f.interestRate >= 0.0 && f.period >= 0.0
  {
    if events != [] {
      NumericFieldsStayNonNegative(events[..|events| - 1]);
      var prev := ApplyAll(InitialFormData(), events[..|events| - 1]);
      var e := events[|events| - 1];
      var next := ApplyChange(prev, e);
      assert Get(next, InitialValue).n >= 0.0 && Get(next, MonthlyValue).n >= 0.0;
      assert Get(next, InterestRate).n >= 0.0 && Get(next, Period).n >= 0.0;
    }
  }

  // ---------------------------------------------------------------------------
  // The form state
  // ---------------------------------------------------------------------------

  /** The form's state: the record its controls show. */
  class FormState {
    var formData: FormData

    constructor ()
      ensures formData == InitialFormData()
    {
      formData := InitialFormData();
    }

    /** Store the value of the changed control; every other field is kept. */
    method HandleChange(e: ChangeEvent)
      modifies this
      ensures formData == ApplyChange(old(formData), e)
      ensures Get(formData, e.name) == ProcessedValue(e)
      ensures forall other :: other != e.name ==> Get(formData, other) == Get(old(formData), other)
    {
      formData := ApplyChange(formData, e);
    }

    /** Return every field to its default. */
    method HandleClearForm()
      modifies this
      ensures formData == InitialFormData()
      ensures formData.initialValue == 0.0 && formData.monthlyValue == 0.0
      ensures formData.interestRate == 8.0 && formData.interestRatePeriod == "annual"
      ensures formData.period == 10.0 && formData.periodUnit == "years"
    {
      formData := InitialFormData();
    }
  }
}
