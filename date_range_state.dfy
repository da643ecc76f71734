/**
 * The date-range selection state (src/hooks/use-date-range.ts): a preset tag, the date picker's
 * custom range and the flag saying whether the custom range is in force.
 */
module DateRangeHook {
  import opened Wrappers
  import opened Types
  import opened DateUtils

  class DateRangeState {
    var selectedPreset: string
    var customDateRange: Option<DateRange>
    var isCustomRange: bool

    /** The hook's initial state: the 30-day preset, no custom range. */
    constructor()
      ensures selectedPreset == "30d" && customDateRange == None && !isCustomRange
    {
      selectedPreset := "30d";
      customDateRange := None;
      isCustomRange := false;
    }

    /** The custom range is in force only when the flag is set and both of its bounds are present. */
    predicate CustomInForce()
      reads this
    {
      isCustomRange && customDateRange.Some? && customDateRange.value.Complete()
    }

    /**
     * `currentDateRange`: the custom bounds when they are in force, otherwise the selected preset's
     * range. Either way both bounds are present: the result is never half-open.
     */
    function CurrentDateRange(now: Instant): (r: DateRange)
      reads this
      ensures r.Complete()
      ensures CustomInForce() ==> r == customDateRange.value
      ensures !CustomInForce() ==> r == GetPresetDateRange(selectedPreset, now)
    {
      if isCustomRange && customDateRange.Some? && customDateRange.value.from.Some?
         && customDateRange.value.to.Some?
      then DateRange(customDateRange.value.from, customDateRange.value.to)
      else GetPresetDateRange(selectedPreset, now)
    }

    /** `handlePresetChange`: selects the preset and drops any custom range. */
    method HandlePresetChange(preset: string)
      modifies this
      ensures selectedPreset == preset && !isCustomRange && customDateRange == None
      ensures forall now :: CurrentDateRange(now) == GetPresetDateRange(preset, now)
    {
      selectedPreset := preset;
      isCustomRange := false;
      customDateRange := None;
    }

    /**
     * `handleCustomDateChange`: always stores the picked range; turns the custom flag on when both
     * bounds are present and never turns it off.
     */
    method HandleCustomDateChange(range: Option<DateRange>)
      modifies this
      ensures customDateRange == range
      ensures isCustomRange == (old(isCustomRange) || (range.Some? && range.value.Complete()))
      ensures selectedPreset == old(selectedPreset)
      ensures range.Some? && range.value.Complete() ==> forall now :: CurrentDateRange(now) == range.value
      ensures !(range.Some? && range.value.Complete()) ==>
        forall now :: CurrentDateRange(now) == GetPresetDateRange(selectedPreset, now)
    {
      customDateRange := range;
      if range.Some? && range.value.from.Some? && range.value.to.Some? {
        isCustomRange := true;
      }
    }
  }

  /**
   * A run of the handlers: a custom pick with only a start, after a complete one, leaves the flag
   * on but the current range back at the preset's.
   */
  method HalfPickFallsBackToPreset(now: Instant, a: Instant, b: Instant, c: Instant)
    returns (s: DateRangeState)
    ensures s.isCustomRange
    ensures s.CurrentDateRange(now) == GetPresetDateRange("30d", now)
  {
    s := new DateRangeState();
    s.HandleCustomDateChange(Some(DateRange(Some(a), Some(b))));
    assert s.CurrentDateRange(now) == DateRange(Some(a), Some(b));
    s.HandleCustomDateChange(Some(DateRange(Some(c), None)));
  }
}
