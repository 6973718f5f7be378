/**
 * The ordered validation chain run when the form is submitted
 * (streamlit_app.py lines 60-92): the first failing rule decides the error.
 */
module Validation {
  import opened Wrappers
  import opened Clock
  import opened Form

  /** One error per branch of the chain, in the order they are tested. */
  datatype Error = TimeOrder | WeeklyDayCount | BiweeklyDayCount | NoDaysSelected | IncompleteFields

  /** The drop-off time is strictly after the pickup time. */
  predicate TimesOrdered(f: FormFields) {
    !AtOrBefore(f.dropoff, f.pickup)
  }

  /** The number of delivery days each frequency admits. */
  predicate DayCountOk(frequency: Frequency, count: nat) {
    match frequency
    case Weekly => count == 1
    case BiWeekly => count == 2
    case _ => count >= 1
  }

  /** All four fields of a platoon record are present. */
  predicate PlatoonComplete(p: PlatoonRecord) {
    p.id.Some? && p.size.Some? && p.deliveryTime.Some? && p.conflict.Some?
  }

  /** The four top-level numeric fields and every platoon's fields are present. */
  predicate FieldsComplete(c: Candidate) {
    && c.form.simulationDays.Some?
    && c.form.medLogCompany.Some?
    && c.form.bloodInventory.Some?
    && c.form.capacity.Some?
    && forall i :: 0 <= i < |c.platoons| ==> PlatoonComplete(c.platoons[i])
  }

  /** Every rule holds at once. */
  predicate Acceptable(c: Candidate) {
    TimesOrdered(c.form) && DayCountOk(c.form.frequency, |c.form.days|) && FieldsComplete(c)
  }

  /**
   * The validation chain. Each error is characterised by the condition under
   * which it is returned, and success by all rules holding together.
   */
  function Validate(c: Candidate): (r: Result<(), Error>)
    ensures r == Ok(()) <==> Acceptable(c)
    ensures r == Err(TimeOrder) <==> !TimesOrdered(c.form)
    ensures r == Err(WeeklyDayCount) <==>
      TimesOrdered(c.form) && c.form.frequency == Weekly && |c.form.days| != 1
    ensures r == Err(BiweeklyDayCount) <==>
      TimesOrdered(c.form) && c.form.frequency == BiWeekly && |c.form.days| != 2
    ensures r == Err(NoDaysSelected) <==>
      TimesOrdered(c.form) && c.form.frequency in {Daily, Monthly, Other} && |c.form.days| == 0
    ensures r == Err(IncompleteFields) <==>
      TimesOrdered(c.form) && DayCountOk(c.form.frequency, |c.form.days|) && !FieldsComplete(c)
  {
    var f := c.form;
    if AtOrBefore(f.dropoff, f.pickup) then Err(TimeOrder)
    else if f.frequency == Weekly && |f.days| != 1 then Err(WeeklyDayCount)
    else if f.frequency == BiWeekly && |f.days| != 2 then Err(BiweeklyDayCount)
    else if |f.days| == 0 then Err(NoDaysSelected)
    else if FieldsComplete(c) then Ok(())
    else Err(IncompleteFields)
  }

  /** A drop-off not after pickup is rejected whatever the frequency and the days. */
  lemma TimeOrderCheckedFirst(c: Candidate, frequency: Frequency, days: seq<Weekday>, platoons: seq<PlatoonRecord>)
    requires !TimesOrdered(c.form)
    ensures Validate(Candidate(c.form.(frequency := frequency, days := days), platoons)) == Err(TimeOrder)
  {
  }

  /**
   * The delivery days matter only through how many there are: which days,
   * and whether any repeats, never changes the verdict.
   */
  lemma OnlyDayCountMatters(c: Candidate, days: seq<Weekday>)
    requires |days| == |c.form.days|
    ensures Validate(Candidate(c.form.(days := days), c.platoons)) == Validate(c)
  {
  }

  /** With no day selected, Weekly and Bi-weekly fail on their count rule, never on the empty-selection rule. */
  lemma EmptySelectionByFrequency(c: Candidate)
    requires TimesOrdered(c.form) && |c.form.days| == 0
    ensures c.form.frequency == Weekly ==> Validate(c) == Err(WeeklyDayCount)
    ensures c.form.frequency == BiWeekly ==> Validate(c) == Err(BiweeklyDayCount)
    ensures c.form.frequency !in {Weekly, BiWeekly} ==> Validate(c) == Err(NoDaysSelected)
  {
  }

  /** Completeness is examined last: it decides only once every earlier rule holds. */
  lemma CompletenessCheckedLast(c: Candidate, platoons: seq<PlatoonRecord>)
    requires !TimesOrdered(c.form) || !DayCountOk(c.form.frequency, |c.form.days|)
    ensures Validate(Candidate(c.form, platoons)) == Validate(c)
  {
  }
}
