/**
 * The role-aware review screen. Workers are rated on one set of five
 * categories and employers on another; the summary shows the user's own
 * role's categories, the form rates the other side, the tabs filter the
 * review list by role, and each review card labels its categories by the
 * reviewee's role.
 */
module RoleReview {

  import opened Wrappers
  import opened Seqs
  import opened Slider
  import opened Stars

  datatype Role = Worker | Employer

  datatype Review = Review(
    id: string,
    jobTitle: string,
    reviewerName: string,
    reviewerRole: Role,
    revieweeRole: Role,
    date: string,
    overallRating: int,
    categories: map<string, int>,
    comment: string,
    helpful: int,
    reported: bool)

  /** What workers are rated on: key to the label the summary and the form use. */
  const WorkerCategories: map<string, string> := map[
    "punctuality" := "시간 준수",
    "communication" := "소통 능력",
    "workQuality" := "업무 품질",
    "attitude" := "태도",
    "reliability" := "신뢰성"]

  /** What employers are rated on: key to the label the summary and the form use. */
  const EmployerCategories: map<string, string> := map[
    "clarity" := "업무 설명",
    "payment" := "정산 신속성",
    "workplace" := "근무 환경",
    "communication" := "소통 능력",
    "fairness" := "공정성"]

  /** The same tables as the review card labels them, without spaces. */
  const WorkerCardLabels: map<string, string> := map[
    "punctuality" := "시간준수",
    "communication" := "소통능력",
    "workQuality" := "업무품질",
    "attitude" := "태도",
    "reliability" := "신뢰성"]

  const EmployerCardLabels: map<string, string> := map[
    "clarity" := "업무설명",
    "payment" := "정산신속성",
    "workplace" := "근무환경",
    "communication" := "소통능력",
    "fairness" := "공정성"]

  /** The signed-in user's role; fixed to worker. */
  const UserRole: Role := Worker

  /** Each category slider: 1 to 5 in steps of 1. */
  const CategoryTrack: Track := Track(1, 5, 1)

  /** `categoryLabels[key]`: the label, or nothing (`undefined`) for a key the table lacks. */
  function Lookup(labels: map<string, string>, key: string): (r: Option<string>)
    ensures r.None? <==> key !in labels
    ensures r.Some? ==> r.value == labels[key]
  {
    if key in labels then Some(labels[key]) else None
  }

  function Opposite(role: Role): (r: Role)
    ensures r != role
  {
    if role == Worker then Employer else Worker
  }

  /** `getCurrentCategories(role)`: the categories the role is rated on. */
  function CategoriesFor(role: Role): (cs: map<string, string>)
    ensures role == Worker ==> cs == WorkerCategories
    ensures role == Employer ==> cs == EmployerCategories
  {
    if role == Worker then WorkerCategories else EmployerCategories
  }

  /** The form's `currentCategories`: the user rates the other side. */
  function FormCategories(userRole: Role): (cs: map<string, string>)
    ensures cs == CategoriesFor(Opposite(userRole))
  {
    if userRole == Worker then EmployerCategories else WorkerCategories
  }

  /** The card's `categoryLabels`, chosen by the reviewee's role. */
  function CardLabels(revieweeRole: Role): map<string, string>
  {
    if revieweeRole == Worker then WorkerCardLabels else EmployerCardLabels
  }

  /**
   * The form never offers the categories the user is rated on, except the
   * one both sides share: communication; each side has five.
   */
  lemma FormRatesTheOtherSide(userRole: Role)
    ensures FormCategories(userRole).Keys * CategoriesFor(userRole).Keys == {"communication"}
    ensures |FormCategories(userRole).Keys| == 5
  {
    if userRole == Worker {
      assert EmployerCategories.Keys == {"clarity", "payment", "workplace", "communication", "fairness"};
      assert WorkerCategories.Keys == {"punctuality", "communication", "workQuality", "attitude", "reliability"};
    } else {
      assert EmployerCategories.Keys == {"clarity", "payment", "workplace", "communication", "fairness"};
      assert WorkerCategories.Keys == {"punctuality", "communication", "workQuality", "attitude", "reliability"};
    }
  }

  /**
   * A review card finds a label for each category the reviewee's role is
   * rated on, with the same keys as the form that wrote it, and finds none
   * for a category of the other role alone.
   */
  lemma CardLabelsCoverTheRole(role: Role, key: string)
    ensures CardLabels(role).Keys == CategoriesFor(role).Keys
    ensures Lookup(CardLabels(role), key).Some? <==> key in CategoriesFor(role)
  {
  }

  /** Removing the one space between two space-free words joins them. */
  lemma JoinWords(a: string, b: string)
    requires ' ' !in a && ' ' !in b
    ensures RemoveAll(a + " " + b, ' ') == a + b
  {
    RemoveAllAppend(a + " ", b, ' ');
    RemoveAllAppend(a, " ", ' ');
    RemoveOnly(' ');
  }

  /** A label of two words loses its space on the card. */
  lemma TwoWordLabel(a: string, b: string, formLabel: string, cardLabel: string)
    requires ' ' !in a && ' ' !in b
    requires formLabel == a + " " + b && cardLabel == a + b
    ensures cardLabel == RemoveAll(formLabel, ' ')
  {
    JoinWords(a, b);
  }

  /** On a worker's card, each label is the form's label with its space removed. */
  lemma WorkerCardLabelsDropSpaces(key: string)
    requires key in WorkerCategories
    ensures WorkerCardLabels[key] == RemoveAll(WorkerCategories[key], ' ')
  {
    var form, card := WorkerCategories[key], WorkerCardLabels[key];
    if key == "punctuality" {
      TwoWordLabel("시간", "준수", form, card);
    } else if key == "communication" {
      TwoWordLabel("소통", "능력", form, card);
    } else if key == "workQuality" {
      TwoWordLabel("업무", "품질", form, card);
    } else {
      assert ' ' !in form;
    }
  }

  /** On an employer's card, each label is the form's label with its space removed. */
  lemma EmployerCardLabelsDropSpaces(key: string)
    requires key in EmployerCategories
    ensures EmployerCardLabels[key] == RemoveAll(EmployerCategories[key], ' ')
  {
    var form, card := EmployerCategories[key], EmployerCardLabels[key];
    if key == "clarity" {
      TwoWordLabel("업무", "설명", form, card);
    } else if key == "payment" {
      TwoWordLabel("정산", "신속성", form, card);
    } else if key == "workplace" {
      TwoWordLabel("근무", "환경", form, card);
    } else if key == "communication" {
      TwoWordLabel("소통", "능력", form, card);
    } else {
      assert ' ' !in form;
    }
  }

  /** The card's label for a category is the form's label with its spaces removed. */
  lemma CardLabelsDropSpaces(role: Role, key: string)
    requires key in CategoriesFor(role)
    ensures CardLabels(role)[key] == RemoveAll(CategoriesFor(role)[key], ' ')
  {
    if role == Worker {
      WorkerCardLabelsDropSpaces(key);
    } else {
      EmployerCardLabelsDropSpaces(key);
    }
  }

  /** `categories[key] || 5`: an unset (or zero) rating is shown, and fed to the slider, as 5. */
  function DisplayedValue(categories: map<string, int>, key: string): (v: int)
    ensures v != 0
    ensures key !in categories ==> v == 5
    ensures key in categories && categories[key] != 0 ==> v == categories[key]
    ensures key in categories && categories[key] == 0 ==> v == 5
  {
    if key in categories && categories[key] != 0 then categories[key] else 5
  }

  /** The slider's change: `{ ...prev, [key]: value[0] }`. */
  function SliderChanged(categories: map<string, int>, key: string, value: seq<int>): (r: map<string, int>)
    requires |value| >= 1
    ensures r.Keys == categories.Keys + {key}
    ensures r[key] == value[0]
    ensures forall k :: k in categories && k != key ==> r[k] == categories[k]
  {
    categories[key := value[0]]
  }

  /**
   * Moving a slider shows the chosen value on that slider and leaves every
   * other slider's value as it was.
   */
  lemma SliderShowsChoice(categories: map<string, int>, key: string, value: seq<int>, other: string)
    requires AllOnTrack(CategoryTrack, value) && other != key
    ensures DisplayedValue(SliderChanged(categories, key, value), key) == value[0]
    ensures DisplayedValue(SliderChanged(categories, key, value), other) == DisplayedValue(categories, other)
  {
  }

  /** The reviewer badge. */
  function ReviewerBadge(role: Role): string
  {
    if role == Worker then "구직자" else "구인자"
  }

  /** The filter callbacks of the two tabs. */
  function ReceivedBy(role: Role): Review -> bool { (r: Review) => r.revieweeRole == role }
  function GivenBy(role: Role): Review -> bool { (r: Review) => r.reviewerRole == role }

  /** The "received" tab: `review.revieweeRole === userRole`. */
  function Received(reviews: seq<Review>, role: Role): (r: seq<Review>)
    ensures IsSubsequence(r, reviews)
    ensures forall i :: 0 <= i < |r| ==> r[i].revieweeRole == role
    ensures forall i :: 0 <= i < |reviews| && reviews[i].revieweeRole == role ==> reviews[i] in r
    ensures |r| == CountWhere(reviews, ReceivedBy(role))
  {
    FilterLength(reviews, ReceivedBy(role));
    Filter(reviews, ReceivedBy(role))
  }

  /** The "given" tab: `review.reviewerRole === userRole`. */
  function Given(reviews: seq<Review>, role: Role): (r: seq<Review>)
    ensures IsSubsequence(r, reviews)
    ensures forall i :: 0 <= i < |r| ==> r[i].reviewerRole == role
    ensures forall i :: 0 <= i < |reviews| && reviews[i].reviewerRole == role ==> reviews[i] in r
    ensures |r| == CountWhere(reviews, GivenBy(role))
  {
    FilterLength(reviews, GivenBy(role));
    Filter(reviews, GivenBy(role))
  }

  /**
   * When every review goes from one role to the other, each review is in
   * exactly one of the user's two tabs, and the reviews one role gave are
   * the reviews the other received.
   */
  lemma TabsPartitionReviews(reviews: seq<Review>, role: Role)
    requires forall i :: 0 <= i < |reviews| ==> reviews[i].reviewerRole != reviews[i].revieweeRole
    ensures |Received(reviews, role)| + |Given(reviews, role)| == |reviews|
    ensures Given(reviews, role) == Received(reviews, Opposite(role))
  {
    FilterSplit(reviews, ReceivedBy(role), GivenBy(role));
    FilterSame(reviews, GivenBy(role), ReceivedBy(Opposite(role)));
  }

  /** `RoleBasedReviewForm`'s state; categories start empty and are shown as 5. */
  class Form {
    const userRole: Role
    var rating: int
    var categories: map<string, int>
    var comment: string

    ghost predicate Valid()
      reads this
    {
      && 1 <= rating <= 5
      && forall k :: k in categories ==> OnTrack(CategoryTrack, categories[k])
    }

    constructor (userRole: Role)
      ensures Valid() && this.userRole == userRole
      ensures rating == 5 && categories == map[] && comment == ""
    {
      this.userRole := userRole;
      rating := 5;
      categories := map[];
      comment := "";
    }

    /** The value each slider shows. */
    function Shown(key: string): int
      reads this
    {
      DisplayedValue(categories, key)
    }

    /** A click on star `star`. */
    method SetRating(star: int)
      requires Valid() && 1 <= star <= 5
      modifies this
      ensures Valid() && rating == star && FilledCount(Row(rating)) == star
      ensures categories == old(categories) && comment == old(comment)
    {
      rating := star;
      RowShowsRating(star);
    }

    /** The slider of one of the form's categories reports a value. */
    method SetCategory(key: string, value: seq<int>)
      requires Valid() && key in FormCategories(userRole) && AllOnTrack(CategoryTrack, value)
      modifies this
      ensures Valid() && categories == SliderChanged(old(categories), key, value)
      ensures Shown(key) == value[0]
      ensures forall k :: k != key ==> Shown(k) == old(Shown(k))
      ensures rating == old(rating) && comment == old(comment)
    {
      categories := categories[key := value[0]];
    }

    method SetComment(text: string)
      requires Valid()
      modifies this
      ensures Valid() && comment == text
      ensures rating == old(rating) && categories == old(categories)
    {
      comment := text;
    }
  }

  /** Every slider the form draws shows a value on its track, whether set or not. */
  lemma FormShowsOnTrackValues(f: Form, key: string)
    requires f.Valid()
    ensures OnTrack(CategoryTrack, f.Shown(key))
  {
  }
}
