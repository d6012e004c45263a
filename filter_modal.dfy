/**
 * The simpler filter dialog: two checkbox groups (categories and
 * durations) that follow the checklist rule, three sliders, two flags, a
 * reset, and an apply that only closes the dialog (the chosen filters are
 * handed to nobody). The rating slider moves in steps of 0.5 and is kept in
 * half points, so 4 points is 8.
 */
module FilterModal {

  import opened Checklist
  import opened Slider

  datatype Filters = Filters(
    categories: seq<string>,
    distance: seq<int>,
    payRange: seq<int>,
    duration: seq<string>,
    ratingHalves: seq<int>,
    urgent: bool,
    verified: bool)

  /** The record the dialog starts with and `handleReset` restores. */
  const Initial: Filters := Filters([], [5], [10000, 100000], [], [8], false, false)

  /** The distance slider: 1 to 20 km in 1 km steps. */
  const DistanceTrack: Track := Track(1, 20, 1)

  /** The pay slider: 10,000 to 200,000 won in 5,000 won steps, two thumbs. */
  const PayTrack: Track := Track(10000, 200000, 5000)

  /** The minimum-rating slider: 1 to 5 points in 0.5 steps, in half points. */
  const RatingTrack: Track := Track(2, 10, 1)

  predicate SlidersOnTrack(f: Filters)
  {
    && AllOnTrack(DistanceTrack, f.distance)
    && |f.payRange| == 2 && AllOnTrack(PayTrack, f.payRange)
    && AllOnTrack(RatingTrack, f.ratingHalves)
  }

  /** The "applied filters" block is rendered when this holds. */
  predicate ShowsActiveFilters(f: Filters)
  {
    |f.categories| > 0 || |f.duration| > 0 || f.urgent || f.verified
  }

  /** The initial record is on its tracks and shows no active filters. */
  lemma InitialIsQuiet()
    ensures SlidersOnTrack(Initial) && !ShowsActiveFilters(Initial)
    ensures Positions(DistanceTrack) == 20 && Positions(PayTrack) == 39 && Positions(RatingTrack) == 9
  {
  }

  /** The sliders never make the active-filters block appear; either flag alone does. */
  lemma ActiveFiltersIgnoreSliders(f: Filters, distance: seq<int>, pay: seq<int>, rating: seq<int>)
    ensures ShowsActiveFilters(f.(distance := distance, payRange := pay, ratingHalves := rating))
         == ShowsActiveFilters(f)
    ensures ShowsActiveFilters(f.(urgent := true)) && ShowsActiveFilters(f.(verified := true))
  {
  }

  /** The block is hidden exactly when both lists are empty and both flags are off. */
  lemma ActiveFiltersHiddenIffCleared(f: Filters)
    ensures !ShowsActiveFilters(f)
        <==> f.categories == [] && f.duration == [] && !f.urgent && !f.verified
  {
  }

  class Modal {
    var filters: Filters
    var isOpen: bool

    ghost predicate Valid()
      reads this
    {
      SlidersOnTrack(filters)
    }

    constructor ()
      ensures Valid() && filters == Initial && isOpen
    {
      filters := Initial;
      isOpen := true;
    }

    /** `handleCategoryChange`. */
    method HandleCategoryChange(category: string, checked: bool)
      requires Valid()
      modifies this
      ensures Valid() && isOpen == old(isOpen)
      ensures filters == old(filters).(categories := Toggled(old(filters).categories, category, checked))
    {
      filters := filters.(categories := Toggled(filters.categories, category, checked));
    }

    /** `handleDurationChange`. */
    method HandleDurationChange(duration: string, checked: bool)
      requires Valid()
      modifies this
      ensures Valid() && isOpen == old(isOpen)
      ensures filters == old(filters).(duration := Toggled(old(filters).duration, duration, checked))
    {
      filters := filters.(duration := Toggled(filters.duration, duration, checked));
    }

    /** One of the three sliders reports new values. */
    method SetSliders(distance: seq<int>, payRange: seq<int>, ratingHalves: seq<int>)
      requires Valid()
      requires AllOnTrack(DistanceTrack, distance)
      requires |payRange| == 2 && AllOnTrack(PayTrack, payRange)
      requires AllOnTrack(RatingTrack, ratingHalves)
      modifies this
      ensures Valid() && isOpen == old(isOpen)
      ensures filters == old(filters).(distance := distance, payRange := payRange, ratingHalves := ratingHalves)
    {
      filters := filters.(distance := distance, payRange := payRange, ratingHalves := ratingHalves);
    }

    /** The "urgent only" and "verified only" boxes. */
    method SetFlags(urgent: bool, verified: bool)
      requires Valid()
      modifies this
      ensures Valid() && isOpen == old(isOpen)
      ensures filters == old(filters).(urgent := urgent, verified := verified)
    {
      filters := filters.(urgent := urgent, verified := verified);
    }

    /** `handleReset`. */
    method HandleReset()
      modifies this
      ensures Valid() && isOpen == old(isOpen)
      ensures filters == Initial && !ShowsActiveFilters(filters)
    {
      filters := Initial;
    }

    /** `handleApply`: only `onClose()`; the filters stay as they are and go nowhere. */
    method HandleApply()
      modifies this
      ensures filters == old(filters) && !isOpen
    {
      isOpen := false;
    }
  }
}
