/**
 * The form collector: the values the form's widgets deliver, the platoon
 * records shaped from them (streamlit_app.py lines 38-53) and the candidate
 * submission the validator receives.
 */
module Form {
  import opened Wrappers
  import opened Clock

  /** The options of the frequency select box. */
  datatype Frequency = Daily | Weekly | BiWeekly | Monthly | Other

  /** The options of the delivery-day multiselect. */
  datatype Weekday = Monday | Tuesday | Wednesday | Thursday | Friday | Saturday | Sunday

  /** The 0-5 conflict slider's range. */
  type Likelihood = k: nat | k <= 5

  /** What the four widgets of the platoon panel with a given index deliver. */
  datatype PlatoonWidgets = PlatoonWidgets(
    id: Option<nat>,
    size: Option<nat>,
    deliveryTime: Option<Time>,
    conflict: Option<Likelihood>)

  /** The dictionary appended to `platoon_data` for one platoon. */
  datatype PlatoonRecord = PlatoonRecord(
    id: Option<nat>,
    size: Option<nat>,
    deliveryTime: Option<string>,
    conflict: Option<Likelihood>)

  /** The top-level widget values of the form. */
  datatype FormFields = FormFields(
    simulationDays: Option<nat>,
    medLogCompany: Option<nat>,
    bloodInventory: Option<nat>,
    frequency: Frequency,
    days: seq<Weekday>,
    pickup: Time,
    dropoff: Time,
    capacity: Option<nat>,
    numPlatoons: nat)

  /** What the validator examines: the form's fields and the collected platoon records. */
  datatype Candidate = Candidate(form: FormFields, platoons: seq<PlatoonRecord>)

  /**
   * A record as shaping leaves it: it carries an ID and an `HH:MM` delivery
   * time; only its size or conflict value can be missing.
   */
  predicate RecordShaped(p: PlatoonRecord) {
    p.id.Some? && p.deliveryTime.Some? && IsClockText(p.deliveryTime.value)
  }

  /**
   * A candidate as the form builds it: one platoon record per declared
   * platoon, and every delivery time that is present is an `HH:MM` text.
   */
  predicate Shaped(c: Candidate) {
    && |c.platoons| == c.form.numPlatoons
    && forall i :: 0 <= i < |c.platoons| ==>
         c.platoons[i].deliveryTime.Some? ==> IsClockText(c.platoons[i].deliveryTime.value)
  }

  /**
   * Shapes one platoon panel into its record. `int(platoon_id)` and
   * `delivery_time.strftime(...)` raise on a missing value, which is None
   * here; a missing size or conflict value is stored as missing.
   */
  function ShapePlatoon(w: PlatoonWidgets): (r: Option<PlatoonRecord>)
    ensures r.Some? <==> w.id.Some? && w.deliveryTime.Some?
    ensures r.Some? ==> r.value.id == w.id && r.value.size == w.size && r.value.conflict == w.conflict
    ensures r.Some? ==> r.value.deliveryTime.Some? && Parse(r.value.deliveryTime.value) == w.deliveryTime
  {
    match (w.id, w.deliveryTime)
    case (Some(id), Some(t)) =>
      ParseFormat(t);
      Some(PlatoonRecord(Some(id), w.size, Some(Format(t)), w.conflict))
    case _ => None
  }

  /**
   * The platoon records for panels 0 .. n - 1 in index order, or None when
   * shaping some panel raises.
   */
  function Collected(n: nat, panel: nat -> PlatoonWidgets): (r: Option<seq<PlatoonRecord>>)
    ensures r.Some? ==> |r.value| == n
    ensures r.Some? ==> forall i :: 0 <= i < n ==> RecordShaped(r.value[i])
  {
    if n == 0 then Some([])
    else
      match (Collected(n - 1, panel), ShapePlatoon(panel(n - 1)))
      case (Some(done), Some(p)) => Some(done + [p])
      case _ => None
  }

  /** Every one of the first n panels can be shaped without raising. */
  predicate AllShapeable(n: nat, panel: nat -> PlatoonWidgets) {
    forall i :: 0 <= i < n ==> ShapePlatoon(panel(i)).Some?
  }

  /**
   * Collection succeeds exactly when every panel can be shaped, and then it
   * yields one record per index, the i-th shaped from panel i.
   */
  lemma {:induction false} CollectedSpec(n: nat, panel: nat -> PlatoonWidgets)
    ensures Collected(n, panel).Some? <==> AllShapeable(n, panel)
    ensures Collected(n, panel).Some? ==>
      forall i :: 0 <= i < n ==> Some(Collected(n, panel).value[i]) == ShapePlatoon(panel(i))
  {
    if n > 0 {
      CollectedSpec(n - 1, panel);
      var before := Collected(n - 1, panel);
      var last := ShapePlatoon(panel(n - 1));
      if before.Some? && last.Some? {
        var all := before.value + [last.value];
        assert Collected(n, panel) == Some(all);
        forall i | 0 <= i < n
          ensures Some(all[i]) == ShapePlatoon(panel(i))
        {
          if i < n - 1 {
            assert all[i] == before.value[i];
          }
        }
      } else {
        assert Collected(n, panel).None?;
        if before.None? {
          var j :| 0 <= j < n - 1 && ShapePlatoon(panel(j)).None?;
        }
        assert !AllShapeable(n, panel);
      }
    }
  }

  /** The `for i in range(n)` loop that builds `platoon_data`. */
  method CollectPlatoons(n: nat, panel: nat -> PlatoonWidgets) returns (r: Option<seq<PlatoonRecord>>)
    ensures r == Collected(n, panel)
  {
    var data: seq<PlatoonRecord> := [];
    for i := 0 to n
      invariant Collected(i, panel) == Some(data)
    {
      var p := ShapePlatoon(panel(i));
      if p.None? {
        CollectedSpec(n, panel);
        return None;
      }
      data := data + [p.value];
    }
    return Some(data);
  }
}
