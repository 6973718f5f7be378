/** Concrete submissions and what the model decides for them. */
module Scenarios {
  import opened Wrappers
  import opened Clock
  import opened Form
  import opened Validation
  import opened Accumulator

  /** A fully filled-in form with the given schedule and platoon count. */
  function Filled(frequency: Frequency, days: seq<Weekday>, pickup: Time, dropoff: Time, n: nat): FormFields {
    FormFields(Some(30), Some(7), Some(120), frequency, days, pickup, dropoff, Some(40), n)
  }

  /** A complete platoon record with the given delivery time. */
  function FullPlatoon(id: nat, time: Time): PlatoonRecord {
    PlatoonRecord(Some(id), Some(25), Some(Format(time)), Some(2))
  }

  /** Pickup 08:00 and drop-off 07:00 is a time-order error. */
  lemma DropoffBeforePickup()
    ensures Validate(Candidate(Filled(Daily, [Monday], Time(8, 0), Time(7, 0), 0), [])) == Err(TimeOrder)
  {
  }

  /** Weekly with Monday and Tuesday is a weekly day-count error. */
  lemma WeeklyWithTwoDays()
    ensures Validate(Candidate(Filled(Weekly, [Monday, Tuesday], Time(8, 0), Time(9, 0), 0), [])) == Err(WeeklyDayCount)
  {
  }

  /** Bi-weekly with Monday twice passes the count rule and is accepted. */
  lemma BiweeklyWithRepeatedDay()
    ensures Validate(Candidate(Filled(BiWeekly, [Monday, Monday], Time(8, 0), Time(9, 0), 0), [])) == Ok(())
  {
  }

  /** A platoon without a conflict value makes the submission incomplete. */
  lemma PlatoonMissingConflict()
    ensures Validate(Candidate(Filled(Daily, [Monday], Time(8, 0), Time(9, 0), 1),
                               [PlatoonRecord(Some(1), Some(25), Some("10:00"), None)])) == Err(IncompleteFields)
  {
    var c := Candidate(Filled(Daily, [Monday], Time(8, 0), Time(9, 0), 1),
                       [PlatoonRecord(Some(1), Some(25), Some("10:00"), None)]);
    assert !PlatoonComplete(c.platoons[0]);
  }

  /** `08:05` is how 8:05 is stored. */
  lemma RendersWithLeadingZeros()
    ensures Format(Time(8, 5)) == "08:05"
  {
  }

  /**
   * Daily on Monday with two filled platoons: the first submission is stored,
   * a second with its times reversed is rejected and leaves the log as it was.
   */
  method DailyWithTwoPlatoons() returns (first: RunOutcome, second: RunOutcome, stored: seq<Submission>)
    ensures first == Submitted(Ok(())) && second == Submitted(Err(TimeOrder))
    ensures |stored| == 1 && stored[0].numPlatoons == 2 && |stored[0].platoons| == 2
    ensures stored[0].schedule.pickupTime == "08:00" && stored[0].schedule.dropoffTime == "09:00"
  {
    var session := new SubmissionLog();
    var panel := (i: nat) => PlatoonWidgets(Some(i + 1), Some(25), Some(Time(10, 30)), Some(2));
    var form := Filled(Daily, [Monday], Time(8, 0), Time(9, 0), 2);
    var p1, p2 := FullPlatoon(1, Time(10, 30)), FullPlatoon(2, Time(10, 30));
    assert ShapePlatoon(panel(0)) == Some(p1);
    assert ShapePlatoon(panel(1)) == Some(p2);
    var none: seq<PlatoonRecord> := [];
    assert none + [p1] == [p1];
    assert [p1] + [p2] == [p1, p2];
    assert Collected(1, panel) == Some([p1]);
    assert Collected(2, panel) == Some([p1, p2]);
    first := session.RunForm(form, panel, true);
    assert first == Submitted(Ok(()));
    assert |session.log| == 1;

    second := session.RunForm(form.(pickup := Time(9, 0), dropoff := Time(8, 0)), panel, true);
    stored := session.log;
  }
}
