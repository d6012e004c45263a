/**
 * The review screen: a draft review held in `currentReview` with its rating
 * handler, the "received" and "given" tabs filtering the review list, the
 * review-writing form (a star rating and four category sliders), and the
 * review card's "helpful" toggle.
 */
module ReviewSystem {

  import opened Seqs
  import opened Slider
  import opened Stars

  datatype Party = Employer | Worker

  /** `ReviewData`; `categories` is keyed by category name. */
  datatype Review = Review(
    id: string,
    jobTitle: string,
    reviewerName: string,
    reviewerType: Party,
    revieweeType: Party,
    date: string,
    overallRating: int,
    categories: map<string, int>,
    comment: string,
    helpful: int,
    reported: bool)

  /** `currentReview`, the part of a review being drafted. */
  datatype Draft = Draft(overallRating: int, categories: map<string, int>, comment: string)

  /** The key `handleRatingChange` treats as the overall rating. */
  const Overall: string := "overall"

  /** The four rated categories. */
  const CategoryKeys: set<string> := {"punctuality", "communication", "workQuality", "attitude"}

  /** Every category at 5. */
  const AllFives: map<string, int> :=
    map["punctuality" := 5, "communication" := 5, "workQuality" := 5, "attitude" := 5]

  const InitialDraft: Draft := Draft(5, AllFives, "")

  /** Each category slider: 1 to 5 in steps of 1. */
  const CategoryTrack: Track := Track(1, 5, 1)

  /**
   * `handleRatingChange(category, value)`: the overall rating for
   * "overall", otherwise the named category (added when it is new); the
   * slider's first thumb is the value.
   */
  function RatingChanged(d: Draft, category: string, value: seq<int>): (r: Draft)
    requires |value| >= 1
    ensures r.comment == d.comment
    ensures category == Overall ==> r.overallRating == value[0] && r.categories == d.categories
    ensures category != Overall ==> && r.overallRating == d.overallRating
                                    && r.categories.Keys == d.categories.Keys + {category}
                                    && r.categories[category] == value[0]
                                    && forall k :: k in d.categories && k != category ==> r.categories[k] == d.categories[k]
  {
    if category == Overall then d.(overallRating := value[0])
    else d.(categories := d.categories[category := value[0]])
  }

  /** The latest change to a rating wins. */
  lemma LatestRatingWins(d: Draft, category: string, v: seq<int>, w: seq<int>)
    requires |v| >= 1 && |w| >= 1
    ensures RatingChanged(RatingChanged(d, category, v), category, w) == RatingChanged(d, category, w)
  {
  }

  /** Changes to different ratings do not interfere: their order does not matter. */
  lemma IndependentRatingsCommute(d: Draft, c1: string, c2: string, v: seq<int>, w: seq<int>)
    requires |v| >= 1 && |w| >= 1 && c1 != c2
    ensures RatingChanged(RatingChanged(d, c1, v), c2, w) == RatingChanged(RatingChanged(d, c2, w), c1, v)
  {
    if c1 != Overall && c2 != Overall {
      assert d.categories[c1 := v[0]][c2 := w[0]] == d.categories[c2 := w[0]][c1 := v[0]];
    }
  }

  /** Starting from the initial draft, rating a known category keeps exactly the four categories, none called "overall". */
  lemma KnownCategoryKeepsKeys(d: Draft, category: string, v: seq<int>)
    requires |v| >= 1 && d.categories.Keys == CategoryKeys
    requires category in CategoryKeys || category == Overall
    ensures RatingChanged(d, category, v).categories.Keys == CategoryKeys
    ensures Overall !in RatingChanged(d, category, v).categories
  {
  }

  predicate IsReceived(r: Review) { r.revieweeType == Worker }
  predicate IsGiven(r: Review) { r.reviewerType == Worker }

  /** The "received" tab: reviews of the worker. */
  function Received(reviews: seq<Review>): (r: seq<Review>)
    ensures IsSubsequence(r, reviews)
    ensures forall i :: 0 <= i < |r| ==> r[i].revieweeType == Worker
    ensures forall i :: 0 <= i < |reviews| && reviews[i].revieweeType == Worker ==> reviews[i] in r
    ensures |r| == CountWhere(reviews, IsReceived)
  {
    FilterLength(reviews, IsReceived);
    Filter(reviews, IsReceived)
  }

  /** The "given" tab: reviews written by the worker. */
  function Given(reviews: seq<Review>): (r: seq<Review>)
    ensures IsSubsequence(r, reviews)
    ensures forall i :: 0 <= i < |r| ==> r[i].reviewerType == Worker
    ensures forall i :: 0 <= i < |reviews| && reviews[i].reviewerType == Worker ==> reviews[i] in r
    ensures |r| == CountWhere(reviews, IsGiven)
  {
    FilterLength(reviews, IsGiven);
    Filter(reviews, IsGiven)
  }

  /**
   * When nobody reviews their own side, every review lands in exactly one
   * of the two tabs.
   */
  lemma TabsPartitionReviews(reviews: seq<Review>)
    requires forall i :: 0 <= i < |reviews| ==> reviews[i].reviewerType != reviews[i].revieweeType
    ensures |Received(reviews)| + |Given(reviews)| == |reviews|
    ensures forall i :: 0 <= i < |reviews| ==> (reviews[i] in Received(reviews) <==> reviews[i] !in Given(reviews))
  {
    FilterSplit(reviews, IsReceived, IsGiven);
  }

  /** The screen's state: the active tab and the draft. */
  class Screen {
    var activeTab: string
    var currentReview: Draft

    constructor ()
      ensures activeTab == "write" && currentReview == InitialDraft
    {
      activeTab := "write";
      currentReview := InitialDraft;
    }

    /** `handleRatingChange`. */
    method HandleRatingChange(category: string, value: seq<int>)
      requires |value| >= 1
      modifies this
      ensures currentReview == RatingChanged(old(currentReview), category, value)
      ensures activeTab == old(activeTab)
    {
      if category == Overall {
        currentReview := currentReview.(overallRating := value[0]);
      } else {
        currentReview := currentReview.(categories := currentReview.categories[category := value[0]]);
      }
    }

    method SetActiveTab(tab: string)
      modifies this
      ensures activeTab == tab && currentReview == old(currentReview)
    {
      activeTab := tab;
    }
  }

  /** `ReviewWriteForm`: the star rating, the four category sliders and the comment. */
  class WriteForm {
    var rating: int
    var categories: map<string, int>
    var comment: string

    /** The rating is a star, and there is one on-track value per category. */
    ghost predicate Valid()
      reads this
    {
      && 1 <= rating <= 5
      && categories.Keys == CategoryKeys
      && forall k :: k in categories ==> OnTrack(CategoryTrack, categories[k])
    }

    constructor ()
      ensures Valid() && rating == 5 && categories == AllFives && comment == ""
    {
      rating := 5;
      categories := AllFives;
      comment := "";
    }

    /** A click on star `star`; the row then shows exactly that many filled stars. */
    method SetRating(star: int)
      requires Valid() && 1 <= star <= 5
      modifies this
      ensures Valid() && rating == star && FilledCount(Row(rating)) == star
      ensures categories == old(categories) && comment == old(comment)
    {
      rating := star;
      RowShowsRating(star);
    }

    /** A category slider reports a new value: `{ ...prev, [key]: newValue[0] }`. */
    method SetCategory(key: string, newValue: seq<int>)
      requires Valid() && key in CategoryKeys && AllOnTrack(CategoryTrack, newValue)
      modifies this
      ensures Valid() && categories == old(categories)[key := newValue[0]]
      ensures rating == old(rating) && comment == old(comment)
    {
      categories := categories[key := newValue[0]];
    }

    method SetComment(text: string)
      requires Valid()
      modifies this
      ensures Valid() && comment == text
      ensures rating == old(rating) && categories == old(categories)
    {
      comment := text;
    }
  }

  /** `ReviewCard`'s local state: whether the reader marked it helpful. */
  class Card {
    const review: Review
    var isHelpful: bool

    constructor (review: Review)
      ensures this.review == review && !isHelpful
    {
      this.review := review;
      isHelpful := false;
    }

    /** The "helpful" button flips the mark; the count shown is the review's own and does not move. */
    method ToggleHelpful()
      modifies this
      ensures isHelpful == !old(isHelpful)
    {
      isHelpful := !isHelpful;
    }
  }
}
