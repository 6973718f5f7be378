/**
 * The session's submission log (`st.session_state.user_data`): accepted
 * submissions are normalised and appended, rejected ones leave it untouched.
 */
module Accumulator {
  import opened Wrappers
  import opened Clock
  import opened Form
  import opened Validation

  /** The "Transportation Schedule" part of a stored entry. */
  datatype Schedule = Schedule(
    frequency: Frequency,
    deliveryDays: seq<Weekday>,
    pickupTime: string,
    dropoffTime: string,
    capacity: nat)

  /** One stored entry, `new_entry`. */
  datatype Submission = Submission(
    simulationDays: nat,
    medLogCompany: nat,
    bloodInventory: nat,
    schedule: Schedule,
    numPlatoons: nat,
    platoons: seq<PlatoonRecord>)

  /**
   * What holds of every stored entry: both times are `HH:MM` texts with the
   * drop-off strictly after the pickup, the day count fits the frequency,
   * there is one platoon record per declared platoon, and every platoon
   * record is complete with an `HH:MM` delivery time.
   */
  predicate WellFormed(e: Submission) {
    && Parse(e.schedule.pickupTime).Some?
    && Parse(e.schedule.dropoffTime).Some?
    && !AtOrBefore(Parse(e.schedule.dropoffTime).value, Parse(e.schedule.pickupTime).value)
    && DayCountOk(e.schedule.frequency, |e.schedule.deliveryDays|)
    && |e.platoons| == e.numPlatoons
    && forall i :: 0 <= i < |e.platoons| ==>
         PlatoonComplete(e.platoons[i]) && IsClockText(e.platoons[i].deliveryTime.value)
  }

  /** The entry built from an accepted candidate, with both times rendered as `HH:MM`. */
  function Normalize(c: Candidate): (e: Submission)
    requires Validate(c).Ok? && Shaped(c)
    ensures WellFormed(e)
    ensures Parse(e.schedule.pickupTime) == Some(c.form.pickup)
    ensures Parse(e.schedule.dropoffTime) == Some(c.form.dropoff)
    ensures Some(e.simulationDays) == c.form.simulationDays
    ensures Some(e.medLogCompany) == c.form.medLogCompany
    ensures Some(e.bloodInventory) == c.form.bloodInventory
    ensures Some(e.schedule.capacity) == c.form.capacity
    ensures e.schedule.frequency == c.form.frequency && e.schedule.deliveryDays == c.form.days
    ensures e.numPlatoons == c.form.numPlatoons && e.platoons == c.platoons
  {
    var f := c.form;
    ParseFormat(f.pickup);
    ParseFormat(f.dropoff);
    Submission(
      f.simulationDays.value,
      f.medLogCompany.value,
      f.bloodInventory.value,
      Schedule(f.frequency, f.days, Format(f.pickup), Format(f.dropoff), f.capacity.value),
      f.numPlatoons,
      c.platoons)
  }

  /**
   * An entry stored for a form whose platoons were collected from `panel`
   * holds one platoon per declared platoon, the i-th built from panel i with
   * its delivery time in `HH:MM` form.
   */
  lemma {:induction false} StoredPlatoons(form: FormFields, panel: nat -> PlatoonWidgets)
    requires Collected(form.numPlatoons, panel).Some?
    requires Validate(Candidate(form, Collected(form.numPlatoons, panel).value)).Ok?
    ensures var e := Normalize(Candidate(form, Collected(form.numPlatoons, panel).value));
      && |e.platoons| == e.numPlatoons == form.numPlatoons
      && forall i :: 0 <= i < |e.platoons| ==>
           && e.platoons[i].id == panel(i).id
           && e.platoons[i].size == panel(i).size
           && e.platoons[i].conflict == panel(i).conflict
           && panel(i).deliveryTime.Some?
           && e.platoons[i].deliveryTime == Some(Format(panel(i).deliveryTime.value))
  {
    var n := form.numPlatoons;
    CollectedSpec(n, panel);
    var ps := Collected(n, panel).value;
    forall i | 0 <= i < n
      ensures panel(i).deliveryTime.Some? && ps[i].deliveryTime == Some(Format(panel(i).deliveryTime.value))
    {
      assert Some(ps[i]) == ShapePlatoon(panel(i));
    }
  }

  /** How one run of the form script ends. */
  datatype RunOutcome =
    | Crashed                               // shaping a platoon panel raised
    | NotSubmitted                          // the submit button was not pressed
    | Submitted(result: Result<(), Error>)  // the validator's verdict

  /** The session-scoped, append-only list of accepted submissions. */
  class SubmissionLog {
    var log: seq<Submission>

    /** Every stored entry is well formed. */
    ghost predicate Valid()
      reads this
    {
      forall i :: 0 <= i < |log| ==> WellFormed(log[i])
    }

    /** A new session starts with an empty log. */
    constructor ()
      ensures Valid() && log == []
    {
      log := [];
    }

    /** Validates c; appends its normalised entry exactly when it is accepted. */
    method Submit(c: Candidate) returns (r: Result<(), Error>)
      requires Valid() && Shaped(c)
      modifies this
      ensures Valid()
      ensures r == Validate(c)
      ensures r.Err? ==> log == old(log)
      ensures r.Ok? ==> log == old(log) + [Normalize(c)]
    {
      r := Validate(c);
      if r.Ok? {
        log := log + [Normalize(c)];
      }
    }

    /**
     * One run of the script: collect the platoon panels, then, when the form
     * was submitted, validate and store.
     */
    method RunForm(form: FormFields, panel: nat -> PlatoonWidgets, submitted: bool) returns (outcome: RunOutcome)
      requires Valid()
      modifies this
      ensures Valid()
      ensures outcome == Crashed <==> !AllShapeable(form.numPlatoons, panel)
      ensures outcome == NotSubmitted <==> AllShapeable(form.numPlatoons, panel) && !submitted
      ensures outcome.Submitted? ==> submitted && Collected(form.numPlatoons, panel).Some?
      ensures outcome.Submitted? ==>
        var c := Candidate(form, Collected(form.numPlatoons, panel).value);
        && outcome.result == Validate(c)
        && log == if outcome.result.Ok? then old(log) + [Normalize(c)] else old(log)
      ensures !outcome.Submitted? ==> log == old(log)
    {
      CollectedSpec(form.numPlatoons, panel);
      var platoons := CollectPlatoons(form.numPlatoons, panel);
      if platoons.None? {
        return Crashed;
      }
      if !submitted {
        return NotSubmitted;
      }
      var r := Submit(Candidate(form, platoons.value));
      return Submitted(r);
    }
  }
}
