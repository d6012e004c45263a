/**
 * The detailed filter dialog: one filter record held in component state,
 * four checkbox groups (categories, time slots, work days, durations) that
 * follow the checklist rule, two sliders, a location select, two flags, a
 * reset to the initial record, and an apply that hands the record to the
 * caller and closes.
 */
module EnhancedFilterModal {

  import opened Checklist
  import opened Slider

  datatype Filters = Filters(
    location: string,
    distance: seq<int>,
    categories: seq<string>,
    timeSlots: seq<string>,
    payRange: seq<int>,
    workDays: seq<string>,
    duration: seq<string>,
    rating: seq<int>,
    urgent: bool,
    verified: bool)

  /** The record the dialog starts with and `handleReset` restores. */
  const Initial: Filters :=
    Filters("", [5], [], [], [12000, 50000], [], [], [4], false, false)

  /** The distance slider: 1 to 20 km in 1 km steps. */
  const DistanceTrack: Track := Track(1, 20, 1)

  /** The hourly pay slider: 10,000 to 100,000 won in 1,000 won steps, two thumbs. */
  const PayTrack: Track := Track(10000, 100000, 1000)

  /** The slider values are positions their sliders can report. */
  predicate SlidersOnTrack(f: Filters)
  {
    AllOnTrack(DistanceTrack, f.distance) && |f.payRange| == 2 && AllOnTrack(PayTrack, f.payRange)
  }

  /** The "applied filters" preview is rendered when this holds. */
  predicate ShowsPreview(f: Filters)
  {
    |f.categories| > 0 || |f.timeSlots| > 0 || |f.workDays| > 0
  }

  /** The initial record has its sliders on their tracks and shows no preview. */
  lemma InitialIsQuiet()
    ensures SlidersOnTrack(Initial)
    ensures !ShowsPreview(Initial)
    ensures Positions(DistanceTrack) == 20 && Positions(PayTrack) == 91
  {
  }

  /** The durations, the pay range and the two flags never make the preview appear. */
  lemma PreviewIgnoresOtherFields(f: Filters, duration: seq<string>, pay: seq<int>, urgent: bool, verified: bool)
    ensures ShowsPreview(f.(duration := duration, payRange := pay, urgent := urgent, verified := verified))
         == ShowsPreview(f)
  {
  }

  /** Checking any category, time slot or work day makes the preview appear. */
  lemma CheckingShowsPreview(f: Filters, value: string)
    ensures ShowsPreview(f.(categories := Toggled(f.categories, value, true)))
    ensures ShowsPreview(f.(timeSlots := Toggled(f.timeSlots, value, true)))
    ensures ShowsPreview(f.(workDays := Toggled(f.workDays, value, true)))
  {
  }

  /** The dialog's state: the filter record, whether it is open, and what `onApply` received. */
  class Modal {
    var filters: Filters
    var isOpen: bool
    var applied: seq<Filters>

    ghost predicate Valid()
      reads this
    {
      SlidersOnTrack(filters)
    }

    constructor ()
      ensures Valid()
      ensures filters == Initial && isOpen && applied == []
    {
      filters := Initial;
      isOpen := true;
      applied := [];
    }

    /** `handleCategoryChange`. */
    method HandleCategoryChange(category: string, checked: bool)
      requires Valid()
      modifies this
      ensures Valid()
      ensures filters == old(filters).(categories := Toggled(old(filters).categories, category, checked))
      ensures isOpen == old(isOpen) && applied == old(applied)
    {
      filters := filters.(categories := Toggled(filters.categories, category, checked));
    }

    /** `handleTimeSlotChange`. */
    method HandleTimeSlotChange(timeSlot: string, checked: bool)
      requires Valid()
      modifies this
      ensures Valid()
      ensures filters == old(filters).(timeSlots := Toggled(old(filters).timeSlots, timeSlot, checked))
      ensures isOpen == old(isOpen) && applied == old(applied)
    {
      filters := filters.(timeSlots := Toggled(filters.timeSlots, timeSlot, checked));
    }

    /** `handleWorkDayChange`. */
    method HandleWorkDayChange(day: string, checked: bool)
      requires Valid()
      modifies this
      ensures Valid()
      ensures filters == old(filters).(workDays := Toggled(old(filters).workDays, day, checked))
      ensures isOpen == old(isOpen) && applied == old(applied)
    {
      filters := filters.(workDays := Toggled(filters.workDays, day, checked));
    }

    /** `handleDurationChange`. */
    method HandleDurationChange(duration: string, checked: bool)
      requires Valid()
      modifies this
      ensures Valid()
      ensures filters == old(filters).(duration := Toggled(old(filters).duration, duration, checked))
      ensures isOpen == old(isOpen) && applied == old(applied)
    {
      filters := filters.(duration := Toggled(filters.duration, duration, checked));
    }

    /** The location select. */
    method SetLocation(location: string)
      requires Valid()
      modifies this
      ensures Valid()
      ensures filters == old(filters).(location := location)
      ensures isOpen == old(isOpen) && applied == old(applied)
    {
      filters := filters.(location := location);
    }

    /** The distance slider reports a new value. */
    method SetDistance(value: seq<int>)
      requires Valid() && AllOnTrack(DistanceTrack, value)
      modifies this
      ensures Valid()
      ensures filters == old(filters).(distance := value)
      ensures isOpen == old(isOpen) && applied == old(applied)
    {
      filters := filters.(distance := value);
    }

    /** The pay slider reports a new pair of values. */
    method SetPayRange(value: seq<int>)
      requires Valid() && |value| == 2 && AllOnTrack(PayTrack, value)
      modifies this
      ensures Valid()
      ensures filters == old(filters).(payRange := value)
      ensures isOpen == old(isOpen) && applied == old(applied)
    {
      filters := filters.(payRange := value);
    }

    /** The "urgent only" and "verified only" boxes. */
    method SetFlags(urgent: bool, verified: bool)
      requires Valid()
      modifies this
      ensures Valid()
      ensures filters == old(filters).(urgent := urgent, verified := verified)
      ensures isOpen == old(isOpen) && applied == old(applied)
    {
      filters := filters.(urgent := urgent, verified := verified);
    }

    /** `handleReset`: back to the initial record. */
    method HandleReset()
      modifies this
      ensures Valid()
      ensures filters == Initial && !ShowsPreview(filters)
      ensures isOpen == old(isOpen) && applied == old(applied)
    {
      filters := Initial;
    }

    /** `handleApply`: `onApply(filters)`, then `onClose()`. */
    method HandleApply()
      requires Valid()
      modifies this
      ensures Valid()
      ensures applied == old(applied) + [old(filters)]
      ensures filters == old(filters) && !isOpen
    {
      applied := applied + [filters];
      isOpen := false;
    }
  }
}
