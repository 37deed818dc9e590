/** The configuration resolvers: each setting is taken from a saved option,
    then from a filter hook, then from a default, and is memoised for the run. */
module Config {
  import opened Money
  import opened Wrappers
  import opened Validators
  import opened Locator

  /** What the resolvers read: saved options (None when get_option() gives its
      null default), the value a filter hook returns when a callback is
      registered (None when apply_filters() passes its default through), the
      tax-rate table, the detected cutoff date and today's date. */
  datatype Env = Env(
    savedRateId: Option<nat>,
    rateTable: seq<TaxRate>,
    rateHook: Option<Rate>,
    savedStatuses: Option<Mixed>,
    statusesHook: Option<seq<Mixed>>,
    savedTolerance: Option<Mixed>,
    toleranceHook: Option<Mixed>,
    savedDate: Mixed,
    detectedDate: Option<string>,
    dateHook: Option<string>,
    today: string)

  /** The settings one batch runs with (the source's memoised getters). */
  datatype Settings = Settings(
    tolerance: Dec,
    rate: Rate,
    rateId: Option<nat>,
    statuses: seq<Mixed>,
    dateLimit: string)

  /** The rate the wc_tax_retrofit_rate filter starts from, 0.20. */
  const DefaultRate: Rate := 200000

  /** wc_tax_retrofit_get_selected_rate: the saved rate id's table rate
      (percent / 100, which is the same number in these units), else the filter's value. */
  function SelectedRate(env: Env): (r: Rate)
  {
    if env.savedRateId.Some? && RateById(env.rateTable, env.savedRateId.value).Some?
    then RateById(env.rateTable, env.savedRateId.value).value
    else env.rateHook.GetOr(DefaultRate)
  }

  /** The saved rate wins whenever the table holds its id; otherwise the hook or 0.20. */
  lemma SelectedRatePriority(env: Env)
    ensures env.savedRateId.Some? && RateById(env.rateTable, env.savedRateId.value).Some? ==>
      exists i :: 0 <= i < |env.rateTable| && env.rateTable[i].id == env.savedRateId.value &&
        env.rateTable[i].rate == SelectedRate(env)
    ensures (env.savedRateId.None? || forall i :: 0 <= i < |env.rateTable| ==> env.rateTable[i].id != env.savedRateId.value) ==>
      SelectedRate(env) == (if env.rateHook.Some? then env.rateHook.value else DefaultRate)
  {
  }

  /** The list the wc_tax_retrofit_subscription_statuses filter returns. */
  function FilteredStatuses(env: Env): seq<Mixed>
  {
    env.statusesHook.GetOr(DefaultStatuses)
  }

  /** wc_tax_retrofit_get_subscription_statuses as written: a saved list is
      validated with the filter's list, unvalidated, as its fallback. */
  function SubscriptionStatusesAsWritten(env: Env): (r: seq<Mixed>)
  {
    if env.savedStatuses.Some? then ValidStatuses(env.savedStatuses.value, FilteredStatuses(env))
    else ValidStatuses(Arr(FilteredStatuses(env)), DefaultStatuses)
  }

  /** With an invalid saved option and a filter returning ["bogus"], the
      getter as written hands the run a status outside the allow-list. */
  lemma StatusesAsWrittenLeakFilter()
    ensures var env := Env(None, [], None, Some(Str("active")), Some([Str("bogus")]),
                           None, None, Str(""), None, None, "2024-01-01");
      SubscriptionStatusesAsWritten(env) == [Str("bogus")] &&
      !IsAllowedStatus(SubscriptionStatusesAsWritten(env)[0])
  {
  }

  /** The getter as intended: the filter's list is validated before it serves
      as the fallback of a saved list. */
  function SubscriptionStatuses(env: Env): (r: seq<Mixed>)
    ensures r != [] && forall i :: 0 <= i < |r| ==> IsAllowedStatus(r[i])
  {
    DefaultStatusesAllowed();
    var fallback := ValidStatuses(Arr(FilteredStatuses(env)), DefaultStatuses);
    ValidStatusesShape(Arr(FilteredStatuses(env)), DefaultStatuses);
    if env.savedStatuses.Some? then
      ValidStatusesShape(env.savedStatuses.value, fallback);
      ValidStatuses(env.savedStatuses.value, fallback)
    else fallback
  }

  lemma DefaultStatusesAllowed()
    ensures DefaultStatuses != [] && forall i :: 0 <= i < |DefaultStatuses| ==> IsAllowedStatus(DefaultStatuses[i])
  {
  }

  /** The two agree whenever the saved list, or the filter, is valid. */
  lemma StatusesAgreeOnValidInput(env: Env)
    requires env.savedStatuses.None? || (env.savedStatuses.value.Arr? && AllowedOnly(env.savedStatuses.value.elems) != [])
    ensures SubscriptionStatuses(env) == SubscriptionStatusesAsWritten(env)
  {
    if env.savedStatuses.Some? {
      ValidStatusesShape(env.savedStatuses.value, FilteredStatuses(env));
      ValidStatusesShape(env.savedStatuses.value, ValidStatuses(Arr(FilteredStatuses(env)), DefaultStatuses));
    }
  }

  /** wc_tax_retrofit_get_tolerance: the saved value, or else the filter's
      value, validated to [0.001, 1.0] with 0.01 as the fallback. */
  function Tolerance(env: Env): (t: Dec)
    ensures ToleranceInRange(t)
  {
    DefaultToleranceInRange();
    if env.savedTolerance.Some? then ValidateTolerance(env.savedTolerance.value, DefaultTolerance)
    else ValidateTolerance(env.toleranceHook.GetOr(Num(DefaultTolerance)), DefaultTolerance)
  }

  lemma DefaultToleranceInRange()
    ensures ToleranceInRange(DefaultTolerance)
  {
    assert Pow10(2) == 100 && Pow10(3) == 1000;
  }

  /** A saved tolerance in range is used as is, and hides any filter. */
  lemma SavedToleranceWins(env: Env)
    requires env.savedTolerance.Some?
    requires NumericValue(env.savedTolerance.value).Some? && ToleranceInRange(NumericValue(env.savedTolerance.value).value)
    ensures Tolerance(env) == NumericValue(env.savedTolerance.value).value
  {
  }

  /** wc_tax_retrofit_get_date_limit: a valid saved date, else a valid
      detected date, else the filter's value (today by default), unvalidated. */
  function DateLimit(env: Env): (d: string)
    ensures ValidateDate(env.savedDate).Some? ==> d == ValidateDate(env.savedDate).value
    ensures (ValidateDate(env.savedDate).None? && env.detectedDate.Some? &&
             ValidateDate(Str(env.detectedDate.value)).Some?) ==> d == env.detectedDate.value
    ensures (ValidateDate(env.savedDate).None? &&
             (env.detectedDate.None? || ValidateDate(Str(env.detectedDate.value)).None?)) ==>
            d == env.dateHook.GetOr(env.today)
  {
    if !PhpEmpty(env.savedDate) && ValidateDate(env.savedDate).Some? then ValidateDate(env.savedDate).value
    else if env.detectedDate.Some? && !PhpEmpty(Str(env.detectedDate.value)) &&
            ValidateDate(Str(env.detectedDate.value)).Some?
    then ValidateDate(Str(env.detectedDate.value)).value
    else env.dateHook.GetOr(env.today)
  }

  /** Without a filter callback, and given a real today, the cutoff is always a calendar date. */
  lemma DateLimitIsDate(env: Env)
    requires env.dateHook.None? && ValidateDate(Str(env.today)).Some?
    ensures ValidateDate(Str(DateLimit(env))).Some?
  {
  }

  /** wc_tax_retrofit_get_tax_rate_id for the selected rate. */
  function RateIdFor(env: Env): (r: Option<nat>)
  {
    LocateRateId(env.rateTable, SelectedRate(env))
  }

  /** All settings of one run, resolved once: one value in place of the getters' static caches. */
  function Resolve(env: Env): (s: Settings)
    ensures ToleranceInRange(s.tolerance)
    ensures s.statuses != [] && forall i :: 0 <= i < |s.statuses| ==> IsAllowedStatus(s.statuses[i])
    ensures s.rateId.Some? ==>
      (exists i :: 0 <= i < |env.rateTable| &&
         env.rateTable[i].id == s.rateId.value && Matches(env.rateTable[i], s.rate))
  {
    LocatedRateMatches(env.rateTable, SelectedRate(env));
    Settings(Tolerance(env), SelectedRate(env), RateIdFor(env), SubscriptionStatuses(env), DateLimit(env))
  }

  /** The getters' static caches: each value is computed once and then
      returned as is. The environment does not change during a run, so a
      memoised value always equals the freshly resolved one. */
  class Resolver {
    const env: Env
    var rateMemo: Option<Rate>
    var statusesMemo: Option<seq<Mixed>>
    var toleranceMemo: Option<Dec>
    var dateMemo: Option<string>
    var rateIdMemo: Option<Option<nat>>

    ghost predicate Valid()
      reads this
    {
      (rateMemo.Some? ==> rateMemo.value == SelectedRate(env)) &&
      (statusesMemo.Some? ==> statusesMemo.value == SubscriptionStatuses(env)) &&
      (toleranceMemo.Some? ==> toleranceMemo.value == Tolerance(env)) &&
      (dateMemo.Some? ==> dateMemo.value == DateLimit(env)) &&
      (rateIdMemo.Some? ==> rateIdMemo.value == RateIdFor(env))
    }

    constructor (env: Env)
      ensures Valid() && this.env == env
      ensures rateMemo.None? && statusesMemo.None? && toleranceMemo.None? && dateMemo.None? && rateIdMemo.None?
    {
      this.env := env;
      rateMemo, statusesMemo, toleranceMemo, dateMemo, rateIdMemo := None, None, None, None, None;
    }

    method GetSelectedRate() returns (r: Rate)
      requires Valid()
      modifies this`rateMemo
      ensures Valid() && r == SelectedRate(env) && rateMemo == Some(r)
    {
      if rateMemo.Some? {
        return rateMemo.value;
      }
      if env.savedRateId.Some? {
        var stored := RateById(env.rateTable, env.savedRateId.value);
        if stored.Some? {
          rateMemo := Some(stored.value);
          return stored.value;
        }
      }
      r := env.rateHook.GetOr(DefaultRate);
      rateMemo := Some(r);
    }

    method GetSubscriptionStatuses() returns (r: seq<Mixed>)
      requires Valid()
      modifies this`statusesMemo
      ensures Valid() && r == SubscriptionStatuses(env) && statusesMemo == Some(r)
      ensures r != [] && forall i :: 0 <= i < |r| ==> IsAllowedStatus(r[i])
    {
      if statusesMemo.Some? {
        return statusesMemo.value;
      }
      var filtered := FilteredStatuses(env);
      var fallback := ValidateStatuses(Arr(filtered), DefaultStatuses);
      if env.savedStatuses.Some? {
        r := ValidateStatuses(env.savedStatuses.value, fallback);
      } else {
        r := fallback;
      }
      statusesMemo := Some(r);
    }

    method GetTolerance() returns (t: Dec)
      requires Valid()
      modifies this`toleranceMemo
      ensures Valid() && t == Tolerance(env) && toleranceMemo == Some(t)
      ensures ToleranceInRange(t)
    {
      if toleranceMemo.Some? {
        return toleranceMemo.value;
      }
      if env.savedTolerance.Some? {
        t := ValidateTolerance(env.savedTolerance.value, DefaultTolerance);
      } else {
        t := ValidateTolerance(env.toleranceHook.GetOr(Num(DefaultTolerance)), DefaultTolerance);
      }
      toleranceMemo := Some(t);
    }

    method GetDateLimit() returns (d: string)
      requires Valid()
      modifies this`dateMemo
      ensures Valid() && d == DateLimit(env) && dateMemo == Some(d)
    {
      if dateMemo.Some? {
        return dateMemo.value;
      }
      if !PhpEmpty(env.savedDate) {
        var saved := ValidateDate(env.savedDate);
        if saved.Some? {
          dateMemo := Some(saved.value);
          return saved.value;
        }
      }
      if env.detectedDate.Some? && !PhpEmpty(Str(env.detectedDate.value)) {
        var auto := ValidateDate(Str(env.detectedDate.value));
        if auto.Some? {
          dateMemo := Some(auto.value);
          return auto.value;
        }
      }
      d := env.dateHook.GetOr(env.today);
      dateMemo := Some(d);
    }

    method GetTaxRateId() returns (id: Option<nat>)
      requires Valid()
      modifies this`rateIdMemo, this`rateMemo
      ensures Valid() && id == RateIdFor(env) && rateIdMemo == Some(id)
      ensures rateMemo == old(rateMemo) || rateMemo == Some(SelectedRate(env))
    {
      if rateIdMemo.Some? {
        return rateIdMemo.value;
      }
      var target := GetSelectedRate();
      var french := Best(env.rateTable, target, true);
      if french.Some? {
        id := Some(env.rateTable[french.value].id);
      } else {
        var any := Best(env.rateTable, target, false);
        id := if any.Some? then Some(env.rateTable[any.value].id) else None;
      }
      rateIdMemo := Some(id);
    }

    /** The settings a batch reads, in the order the batch asks for them. */
    method GetSettings() returns (s: Settings)
      requires Valid()
      modifies this
      ensures Valid() && s == Resolve(env)
    {
      var tolerance := GetTolerance();
      var rate := GetSelectedRate();
      var rateId := GetTaxRateId();
      var statuses := GetSubscriptionStatuses();
      var dateLimit := GetDateLimit();
      s := Settings(tolerance, rate, rateId, statuses, dateLimit);
    }
  }
}
