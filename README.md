# ONR Blood Management Support Tool: submission validator and log

The tool is a single-page form for logistics-planning data: simulation length,
company, blood inventory, a transport schedule and a roster of medical
platoons. This project models the part of `streamlit_app.py` that is more
than widget plumbing:

- the loop that shapes one record per declared platoon, with its expected
  delivery time rendered as `HH:MM` (module `Form`, with times in `Clock`);
- the ordered validation chain run on submission, where the first failing
  rule decides the error (module `Validation`);
- the session's append-only list of accepted entries,
  `st.session_state.user_data`, as a class `SubmissionLog` whose `log` field
  grows by one normalised entry on acceptance and is left as it was on
  rejection (module `Accumulator`).

`Scenarios` holds concrete submissions worked through the model.

Widget values are the model's inputs. A value is an `Option` exactly where
the code tests it for None: the four top-level numeric fields (line 68) and
the four fields of every platoon record (lines 69-72). The other widget
values are never tested for None and are plain values (see "## Left out").
The platoon panel for index `i` is a function `panel: nat ->
PlatoonWidgets`, standing for the widgets keyed by `i`. Numeric fields are
`nat`. Times are hour and minute only.

Three points about the code's behaviour:

- The Weekly and Bi-weekly day-count rules are separate branches with their
  own messages (lines 62-65), so they are two errors, `WeeklyDayCount` and
  `BiweeklyDayCount`.
- The empty-selection branch (line 66) can only be reached for Daily,
  Monthly and Other. For Weekly and Bi-weekly, the count rules fire first
  (`EmptySelectionByFrequency`).
- A missing platoon ID or delivery time never reaches the completeness
  check. `int(platoon_id)` and `delivery_time.strftime(...)` (lines 49 and
  51) run while the form is built and raise on None, so such a run ends in
  `Crashed` before validation. Every collected record therefore carries an
  ID and an `HH:MM` time (`Collected`). Only a missing size or conflict value
  can make a platoon incomplete. The completeness check itself still tests
  all four fields, as the code does.

## Model

| member | source | states |
|---|---|---|
| Clock.MinuteOfDay | streamlit_app.py:60 | a time of day is less than 24 * 60 minutes after midnight |
| Clock.AtOrBeforeByMinutes | streamlit_app.py:60 | the time comparison of the first rule (lexicographic on hour, minute) holds exactly when the first time is no more minutes after midnight than the second |
| Clock.AtOrBeforeTotalOrder | streamlit_app.py:60 | the time comparison is reflexive, total, antisymmetric and transitive |
| Clock.TwoDigits | streamlit_app.py:51 | a number below 100 renders as two decimal digits whose value is the number |
| Clock.Format | streamlit_app.py:51 | `strftime("%H:%M")` gives five characters: two digits valued as the hour (00-23), a colon, two digits valued as the minute (00-59) |
| Clock.Parse | streamlit_app.py:82-83 | reading a text back yields a time exactly when the text has the `HH:MM` shape |
| Clock.ParseFormat | streamlit_app.py:82-83 | reading back a rendered time gives that time |
| Clock.FormatParse | streamlit_app.py:82-83 | every `HH:MM` text is the rendering of the time it reads as |
| Clock.FormatInjective | streamlit_app.py:82-83 | distinct times are stored as distinct texts |
| Form.ShapePlatoon | streamlit_app.py:48-53 | shaping a panel succeeds exactly when its ID and delivery time are present; the record keeps ID, size and conflict value and stores the delivery time as text that reads back as the picked time |
| Form.Collected | streamlit_app.py:38-53 | collecting n panels, when it succeeds, yields exactly n records, each carrying an ID and an `HH:MM` delivery time |
| Form.CollectedSpec | streamlit_app.py:38-53 | collection succeeds exactly when every panel 0 .. n-1 can be shaped, and then its i-th record is the one shaped from panel i |
| Form.CollectPlatoons | streamlit_app.py:38-53 | the `for i in range(n)` loop with `append` returns the collection of panels 0 .. n-1, or None once shaping a panel raises |
| Validation.Validate | streamlit_app.py:60-92 | success exactly when times are ordered, the day count fits the frequency and all fields are present; time order error exactly when drop-off is not after pickup; weekly (bi-weekly) count error exactly when times are ordered and a Weekly (Bi-weekly) form has other than 1 (2) days; no-days error exactly when times are ordered and a Daily, Monthly or Other form has no day; incomplete exactly when the earlier rules hold and some field is missing |
| Validation.TimeOrderCheckedFirst | streamlit_app.py:60-61 | a drop-off not after pickup is rejected as a time-order error whatever the frequency, days and platoons |
| Validation.OnlyDayCountMatters | streamlit_app.py:62-67 | replacing the delivery days by any list of the same length, repeats included, leaves the verdict unchanged |
| Validation.EmptySelectionByFrequency | streamlit_app.py:62-67 | with ordered times and no day, Weekly gets the weekly count error, Bi-weekly the bi-weekly count error, every other frequency the no-days error |
| Validation.CompletenessCheckedLast | streamlit_app.py:68-73 | when the time or day-count rules fail, the platoon records do not affect the verdict |
| Accumulator.Normalize | streamlit_app.py:75-88 | the entry of an accepted candidate carries its fields, its days and platoons as given, and its times as `HH:MM` texts that read back as the picked times; it is well formed: times ordered, day count fitting the frequency, one complete platoon record with an `HH:MM` time per declared platoon |
| Accumulator.StoredPlatoons | streamlit_app.py:86-87 | a stored entry has as many platoons as declared, the i-th with panel i's ID, size and conflict value and the `HH:MM` rendering of its delivery time |
| Accumulator.SubmissionLog.constructor | streamlit_app.py:11-12 | a session starts with an empty log |
| Accumulator.SubmissionLog.Submit | streamlit_app.py:60-92 | for a candidate as the form builds it (one record per declared platoon, present times in `HH:MM` form), the result is the validator's verdict; on rejection the log is unchanged; on acceptance the new log is the old log followed by the one normalised entry; every stored entry stays well formed (one complete platoon record per declared platoon, every time an `HH:MM` text) |
| Accumulator.SubmissionLog.RunForm | streamlit_app.py:38-92 | a run crashes exactly when some panel cannot be shaped, does nothing more when not submitted, and otherwise submits the form with the collected platoons; the log changes only by an accepted submission |
| Scenarios.DropoffBeforePickup | streamlit_app.py:60-61 | pickup 08:00 with drop-off 07:00 is a time-order error |
| Scenarios.WeeklyWithTwoDays | streamlit_app.py:62-63 | Weekly with Monday and Tuesday is a weekly count error |
| Scenarios.BiweeklyWithRepeatedDay | streamlit_app.py:64-65 | Bi-weekly with Monday twice is accepted |
| Scenarios.PlatoonMissingConflict | streamlit_app.py:68-73 | a platoon without a conflict value makes the submission incomplete |
| Scenarios.RendersWithLeadingZeros | streamlit_app.py:51 | 8:05 is stored as `08:05` |
| Scenarios.DailyWithTwoPlatoons | streamlit_app.py:38-92 | Daily on Monday with two filled platoons, submitted to a new session, is accepted and stored as one entry with two platoons and times `08:00` and `09:00`; a second submission with reversed times is a time-order error and the log still holds one entry |

## Left out

- Streamlit rendering and widgets (page setup, titles, the form, number inputs, select boxes, sliders, time pickers, success and error messages, `st.json`): their values are the model's inputs, and the messages are the `Error` values.
- JSON export and download (`json.dumps`, `io.BytesIO`, `st.download_button`, lines 100-108): a foreign serializer and file I/O. It only reads the log.
- Session lifecycle and reruns: only the initial empty log (the constructor) and one run at a time (`RunForm`) are modelled.
- Floating-point widget values: every numeric field is a `nat`, as the integer widget defaults give.
- Seconds and microseconds of time values: the picker works in minutes, so times are hour and minute.
- A None platoon count: `int(num_med_platoons)` at line 39 would raise `TypeError` and end the run. The count is a `nat`, so the model does not capture that crash.
- A None pickup or drop-off time: the comparison at line 60 would raise `TypeError` and end the run. Both times are plain `Time` values, so the model does not capture that crash.
- A None frequency or delivery-day list: the code never tests these for None, so they are plain values.
