/** The testimonials section: rating statistics and a rating filter over the
    list of reviews, a slider over the filtered reviews that advances by itself
    until the visitor takes over, and the "share your experience" form that
    puts a new review at the front of the list.

    The statistics and the filter are expressions over the list and are
    modelled as functions; `SectionState` is one snapshot of the component's
    state, the functions after it give each event's effect on a snapshot, and
    `TestimonialsSection` holds the same state in fields and performs the
    events in place. */
module Testimonials {
  import Carousel

  datatype Testimonial = Testimonial(
    id: int, name: string, position: string, company: string,
    image: string, rating: int, quote: string, date: string)

  /** The review form; `rating` is 0 until a star is picked. */
  datatype ReviewForm = ReviewForm(
    name: string, position: string, company: string, rating: int, quote: string)

  /** The text inputs of the form, by their `name` attribute. */
  datatype ReviewField = Name | Position | Company | Quote

  const EmptyForm := ReviewForm("", "", "", 0, "")

  /** The portrait every submitted review gets. */
  const SubmittedImage := "https://ik.imagekit.io/xzjipji0j/men1.jpg?updatedAt=1752859096692"

  /** The ids and ratings of the six reviews the section starts with, in
      order; their names, companies, portraits, quotes and dates are copy text
      that no handler inspects. */
  const InitialRatings: seq<int> := [5, 5, 5, 5, 5, 4]

  predicate IsInitialList(ts: seq<Testimonial>) {
    && |ts| == |InitialRatings|
    && forall i :: 0 <= i < |ts| ==> ts[i].id == i + 1 && ts[i].rating == InitialRatings[i]
  }

  // ------------------------------------------------------------ statistics

  /** The list's ratings, in order. */
  function Ratings(ts: seq<Testimonial>): (rs: seq<int>)
    ensures |rs| == |ts|
    ensures forall i :: 0 <= i < |ts| ==> rs[i] == ts[i].rating
  {
    if ts == [] then [] else [ts[0].rating] + Ratings(ts[1..])
  }

  /** `totalRating`: the sum of all ratings. With ratings from 0 to 5 it lies
      between 0 and five times the number of reviews, so the average shown
      lies between 0 and 5. */
  function TotalRating(ts: seq<Testimonial>): (total: int)
    ensures RatingsInRange(ts) ==> 0 <= total <= 5 * |ts|
  {
    if ts == [] then 0
    else
      assert RatingsInRange(ts) ==> RatingsInRange(ts[1..]) by {
        if RatingsInRange(ts) {
          forall i | 0 <= i < |ts[1..]| ensures 0 <= ts[1..][i].rating <= 5 {
            assert ts[1..][i] == ts[i + 1];
          }
        }
      }
      ts[0].rating + TotalRating(ts[1..])
  }

  /** The number of reviews rated exactly `k` (the five-, four- and three-star
      counts, and the rating-distribution bars). */
  function CountRating(ts: seq<Testimonial>, k: int): (n: nat)
    ensures n <= |ts|
  {
    if ts == [] then 0 else (if ts[0].rating == k then 1 else 0) + CountRating(ts[1..], k)
  }

  /** The count of rating `k` is the multiplicity of `k` among the ratings. */
  lemma {:induction false} CountIsMultiplicity(ts: seq<Testimonial>, k: int)
    ensures CountRating(ts, k) == multiset(Ratings(ts))[k]
  {
    if ts != [] {
      CountIsMultiplicity(ts[1..], k);
      assert Ratings(ts) == [ts[0].rating] + Ratings(ts[1..]);
    }
  }

  /** Distinct ratings are counted by disjoint parts of the list, so the
      five-, four- and three-star counts together never exceed its length. */
  lemma {:induction false} StarCountsBounded(ts: seq<Testimonial>)
    ensures CountRating(ts, 5) + CountRating(ts, 4) + CountRating(ts, 3) <= |ts|
  {
    if ts != [] {
      StarCountsBounded(ts[1..]);
    }
  }

  predicate RatingsInRange(ts: seq<Testimonial>) {
    forall i :: 0 <= i < |ts| ==> 0 <= ts[i].rating <= 5
  }

  /** With ratings from 0 to 5, the total is the star-weighted sum of the
      per-rating counts. */
  lemma {:induction false} TotalIsWeightedCount(ts: seq<Testimonial>)
    requires RatingsInRange(ts)
    ensures TotalRating(ts) == 5 * CountRating(ts, 5) + 4 * CountRating(ts, 4)
      + 3 * CountRating(ts, 3) + 2 * CountRating(ts, 2) + CountRating(ts, 1)
  {
    if ts != [] {
      assert RatingsInRange(ts[1..]) by {
        forall i | 0 <= i < |ts[1..]| ensures 0 <= ts[1..][i].rating <= 5 {
          assert ts[1..][i] == ts[i + 1];
        }
      }
      TotalIsWeightedCount(ts[1..]);
    }
  }

  // ---------------------------------------------------------------- filter

  /** The reviews rated at least `m`, in their original order. */
  function AtLeast(ts: seq<Testimonial>, m: int): (r: seq<Testimonial>)
    ensures |r| <= |ts|
    ensures forall t :: t in r <==> t in ts && t.rating >= m
  {
    if ts == [] then []
    else
      assert ts == [ts[0]] + ts[1..];
      (if ts[0].rating >= m then [ts[0]] else []) + AtLeast(ts[1..], m)
  }

  /** `filteredTestimonials`: the whole list under "All Reviews" (0),
      otherwise exactly the reviews rated at least the chosen number of
      stars. */
  function Filtered(ts: seq<Testimonial>, filterRating: int): (r: seq<Testimonial>)
    ensures |r| <= |ts|
    ensures filterRating <= 0 ==> r == ts
    ensures filterRating > 0 ==> forall t :: t in r <==> t in ts && t.rating >= filterRating
  {
    if filterRating > 0 then AtLeast(ts, filterRating) else ts
  }

  /** Filtering keeps order: filtering a concatenation filters each part. */
  lemma {:induction false} AtLeastConcat(a: seq<Testimonial>, b: seq<Testimonial>, m: int)
    ensures AtLeast(a + b, m) == AtLeast(a, m) + AtLeast(b, m)
  {
    if a == [] {
      assert a + b == b;
    } else {
      assert (a + b)[0] == a[0];
      assert (a + b)[1..] == a[1..] + b;
      AtLeastConcat(a[1..], b, m);
    }
  }

  /** A filter drops nothing exactly when every review passes it. */
  lemma {:induction false} AtLeastKeepsAll(ts: seq<Testimonial>, m: int)
    ensures AtLeast(ts, m) == ts <==> forall i :: 0 <= i < |ts| ==> ts[i].rating >= m
  {
    if ts != [] {
      AtLeastKeepsAll(ts[1..], m);
      if ts[0].rating < m {
        assert |AtLeast(ts, m)| < |ts|;
      } else {
        assert AtLeast(ts, m) == [ts[0]] + AtLeast(ts[1..], m);
        if AtLeast(ts, m) == ts {
          assert AtLeast(ts[1..], m) == ts[1..];
        }
        if forall i :: 0 <= i < |ts| ==> ts[i].rating >= m {
          assert forall i :: 0 <= i < |ts[1..]| ==> ts[1..][i].rating >= m by {
            forall i | 0 <= i < |ts[1..]| ensures ts[1..][i].rating >= m {
              assert ts[1..][i] == ts[i + 1];
            }
          }
        }
      }
    }
  }

  /** Putting a review at the front puts it at the front of every filtered
      view that admits it, and leaves the rest of that view as it was. */
  lemma FilteredPrepend(t: Testimonial, ts: seq<Testimonial>, filterRating: int)
    ensures Filtered([t] + ts, filterRating) ==
      (if filterRating <= 0 || t.rating >= filterRating then [t] else []) + Filtered(ts, filterRating)
  {
    if filterRating > 0 {
      AtLeastConcat([t], ts, filterRating);
    }
  }

  // ----------------------------------------------------------------- state

  /** The filter buttons offer "All Reviews" (0), "5 Stars" and "4+ Stars". */
  predicate FilterChoice(v: int) {
    v == 0 || v == 5 || v == 4
  }

  predicate HasFiveStar(ts: seq<Testimonial>) {
    exists i :: 0 <= i < |ts| && ts[i].rating == 5
  }

  /** Ids run from 1 to the list's length and no two reviews share one, so
      they can key the rendered slides. */
  predicate IdsUnique(ts: seq<Testimonial>) {
    && (forall i :: 0 <= i < |ts| ==> 1 <= ts[i].id <= |ts|)
    && (forall i, j :: 0 <= i < j < |ts| ==> ts[i].id != ts[j].id)
  }

  datatype SectionState = SectionState(
    testimonials: seq<Testimonial>,
    currentIndex: int,
    showForm: bool,
    showToast: bool,
    filterRating: int,
    isAutoPlaying: bool,
    formData: ReviewForm)

  function Shown(s: SectionState): seq<Testimonial> {
    Filtered(s.testimonials, s.filterRating)
  }

  /** The invariant of every reachable state. Reviews are only ever added and
      the initial list has five-star reviews, so no filter choice can empty
      the slider and the slide index always points into it. */
  predicate Inv(s: SectionState) {
    && FilterChoice(s.filterRating)
    && HasFiveStar(s.testimonials)
    && RatingsInRange(s.testimonials)
    && IdsUnique(s.testimonials)
    && 0 <= s.formData.rating <= 5
    && 0 <= s.currentIndex < |Shown(s)|
  }

  /** With a five-star review present, every filter choice shows something. */
  lemma FiveStarShown(ts: seq<Testimonial>, v: int)
    requires FilterChoice(v) && HasFiveStar(ts)
    ensures |Filtered(ts, v)| > 0
  {
    var i :| 0 <= i < |ts| && ts[i].rating == 5;
    assert ts[i] in Filtered(ts, v);
  }

  /** The state on mount: every review shown from the first, auto-play on,
      the form closed and empty. */
  function Initial(seed: seq<Testimonial>): SectionState {
    SectionState(seed, 0, false, false, 0, true, EmptyForm)
  }

  lemma InitialInv(seed: seq<Testimonial>)
    requires IsInitialList(seed)
    ensures Inv(Initial(seed))
  {
    assert seed[0].rating == 5;
  }

  /** Whether the auto-play interval is running. */
  predicate AutoPlayScheduled(s: SectionState) {
    s.isAutoPlaying && |Shown(s)| > 0
  }

  /** One tick of the auto-play interval. */
  function OnAutoPlayTick(s: SectionState): SectionState
    requires Inv(s) && AutoPlayScheduled(s)
  {
    s.(currentIndex := Carousel.Next(s.currentIndex, |Shown(s)|))
  }

  /** `nextSlide`. */
  function OnNextSlide(s: SectionState): SectionState
    requires Inv(s)
  {
    s.(currentIndex := Carousel.Next(s.currentIndex, |Shown(s)|), isAutoPlaying := false)
  }

  /** `prevSlide`. */
  function OnPrevSlide(s: SectionState): SectionState
    requires Inv(s)
  {
    s.(currentIndex := Carousel.Prev(s.currentIndex, |Shown(s)|), isAutoPlaying := false)
  }

  /** A dot under the slider: jump to that slide (auto-play continues). */
  function OnDot(s: SectionState, index: int): SectionState
    requires 0 <= index < |Shown(s)|
  {
    s.(currentIndex := index)
  }

  /** A filter button. */
  function OnFilter(s: SectionState, v: int): SectionState
    requires FilterChoice(v)
  {
    s.(filterRating := v, currentIndex := 0)
  }

  /** The review `handleSubmit` builds from the form. */
  function NewTestimonial(form: ReviewForm, id: int, date: string): (t: Testimonial)
    ensures t.id == id && t.rating == form.rating && t.date == date
    ensures t.name == form.name && t.position == form.position
    ensures t.company == form.company && t.quote == form.quote
  {
    Testimonial(id, form.name, form.position, form.company, SubmittedImage, form.rating, form.quote, date)
  }

  /** `handleSubmit`, with the formatted current date as `date`. */
  function OnSubmit(s: SectionState, date: string): SectionState {
    s.(testimonials := [NewTestimonial(s.formData, |s.testimonials| + 1, date)] + s.testimonials,
       showForm := false,
       showToast := true,
       formData := EmptyForm)
  }

  /** `handleChange` on one of the text inputs. */
  function WithField(form: ReviewForm, field: ReviewField, value: string): (f: ReviewForm)
    ensures f.rating == form.rating
    ensures f.name == (if field == Name then value else form.name)
    ensures f.position == (if field == Position then value else form.position)
    ensures f.company == (if field == Company then value else form.company)
    ensures f.quote == (if field == Quote then value else form.quote)
  {
    match field
    case Name => form.(name := value)
    case Position => form.(position := value)
    case Company => form.(company := value)
    case Quote => form.(quote := value)
  }

  /** `handleChange` on the section. */
  function OnFieldChange(s: SectionState, field: ReviewField, value: string): SectionState {
    s.(formData := WithField(s.formData, field, value))
  }

  /** `handleRatingChange`, from a star button. */
  function OnRatingChange(s: SectionState, rating: int): SectionState {
    s.(formData := s.formData.(rating := rating))
  }

  // --------------------------------------------------------------- lemmas

  /** `nextSlide` and `prevSlide` keep the index on a slide, undo each other,
      and both stop auto-play; the last slide is followed by the first. */
  lemma SlideNavigation(s: SectionState)
    requires Inv(s)
    ensures Inv(OnNextSlide(s)) && Inv(OnPrevSlide(s))
    ensures !OnNextSlide(s).isAutoPlaying && !OnPrevSlide(s).isAutoPlaying
    ensures OnPrevSlide(OnNextSlide(s)).currentIndex == s.currentIndex
    ensures OnNextSlide(OnPrevSlide(s)).currentIndex == s.currentIndex
    ensures s.currentIndex == |Shown(s)| - 1 ==> OnNextSlide(s).currentIndex == 0
    ensures s.currentIndex == 0 ==> OnPrevSlide(s).currentIndex == |Shown(s)| - 1
  {
    Carousel.NextUndoesPrev(s.currentIndex, |Shown(s)|);
  }

  /** `k` auto-play ticks in a row. */
  function AutoPlay(s: SectionState, k: nat): (t: SectionState)
    requires Inv(s) && AutoPlayScheduled(s)
    ensures Inv(t) && AutoPlayScheduled(t) && Shown(t) == Shown(s)
  {
    if k == 0 then s else OnAutoPlayTick(AutoPlay(s, k - 1))
  }

  /** Auto-play moves one slide per tick modulo the number of slides shown,
      and touches nothing but the index. */
  lemma {:induction false} AutoPlayAdvances(s: SectionState, k: nat)
    requires Inv(s) && AutoPlayScheduled(s)
    ensures AutoPlay(s, k) == s.(currentIndex := Carousel.Advance(s.currentIndex, |Shown(s)|, k))
  {
    if k > 0 {
      AutoPlayAdvances(s, k - 1);
    }
  }

  /** A filter button shows its reviews from the first one. */
  lemma FilterSelection(s: SectionState, v: int)
    requires Inv(s) && FilterChoice(v)
    ensures Inv(OnFilter(s, v))
    ensures OnFilter(s, v).filterRating == v && OnFilter(s, v).currentIndex == 0
  {
    FiveStarShown(s.testimonials, v);
  }

  /** A review whose id is one more than the list's length can go in front
      of a list that keeps the invariant's list properties. */
  lemma {:induction false} PrependKeepsList(nt: Testimonial, ts: seq<Testimonial>)
    requires HasFiveStar(ts) && RatingsInRange(ts) && IdsUnique(ts)
    requires nt.id == |ts| + 1 && 0 <= nt.rating <= 5
    ensures HasFiveStar([nt] + ts) && RatingsInRange([nt] + ts) && IdsUnique([nt] + ts)
    ensures forall i :: 0 <= i < |ts| ==> ts[i].id != nt.id
  {
    var us := [nt] + ts;
    assert forall i :: 0 < i < |us| ==> us[i] == ts[i - 1];
    var k :| 0 <= k < |ts| && ts[k].rating == 5;
    assert us[k + 1].rating == 5;
  }

  lemma SubmitKeepsInv(s: SectionState, date: string)
    requires Inv(s)
    ensures Inv(OnSubmit(s, date))
  {
    var nt := NewTestimonial(s.formData, |s.testimonials| + 1, date);
    var t := OnSubmit(s, date);
    assert t.testimonials == [nt] + s.testimonials;
    PrependKeepsList(nt, s.testimonials);
    FilteredPrepend(nt, s.testimonials, s.filterRating);
    assert |Shown(t)| >= |Shown(s)|;
  }

  /** Submitting puts exactly one review in front of the untouched old list,
      with an id no other review has, closes the form, shows the toast and
      empties the form; the slide index still points at a slide. */
  lemma SubmitEffect(s: SectionState, date: string)
    requires Inv(s)
    ensures var t := OnSubmit(s, date);
      && Inv(t)
      && |t.testimonials| == |s.testimonials| + 1
      && t.testimonials[1..] == s.testimonials
      && t.testimonials[0] == NewTestimonial(s.formData, |s.testimonials| + 1, date)
      && (forall i :: 0 <= i < |s.testimonials| ==> s.testimonials[i].id != t.testimonials[0].id)
      && !t.showForm && t.showToast && t.formData == EmptyForm
      && t.currentIndex == s.currentIndex && t.filterRating == s.filterRating
  {
    SubmitKeepsInv(s, date);
    var nt := NewTestimonial(s.formData, |s.testimonials| + 1, date);
    PrependKeepsList(nt, s.testimonials);
    assert OnSubmit(s, date).testimonials[1..] == s.testimonials;
  }

  /** Typing and picking a star keep the invariant; typing never loses a
      picked star, and the star picked last is the rating the next submitted
      review carries. */
  lemma FormEdits(s: SectionState, field: ReviewField, value: string, rating: int, date: string)
    requires Inv(s) && 1 <= rating <= 5
    ensures Inv(OnFieldChange(s, field, value)) && Inv(OnRatingChange(s, rating))
    ensures OnFieldChange(OnRatingChange(s, rating), field, value).formData.rating == rating
    ensures OnSubmit(OnFieldChange(OnRatingChange(s, rating), field, value), date).testimonials[0].rating == rating
    ensures OnSubmit(OnFieldChange(s, field, value), date).testimonials[0].rating == s.formData.rating
  {
  }

  /** The section in place: each field is one piece of the component's state,
      each method one event handler or timer callback. */
  class TestimonialsSection {
    var testimonials: seq<Testimonial>
    var currentIndex: int
    var showForm: bool
    var showToast: bool
    var filterRating: int
    var isAutoPlaying: bool
    var formData: ReviewForm

    function State(): SectionState
      reads this
    {
      SectionState(testimonials, currentIndex, showForm, showToast, filterRating, isAutoPlaying, formData)
    }

    ghost predicate Valid()
      reads this
    {
      Inv(State())
    }

    /** The filtered list the slider shows. */
    function FilteredTestimonials(): seq<Testimonial>
      reads this
    {
      Filtered(testimonials, filterRating)
    }

    /** Mounting, with the source's initial reviews as `seed`. */
    constructor (seed: seq<Testimonial>)
      requires IsInitialList(seed)
      ensures Valid() && State() == Initial(seed)
    {
      testimonials := seed;
      currentIndex := 0;
      showForm, showToast := false, false;
      filterRating := 0;
      isAutoPlaying := true;
      formData := EmptyForm;
      InitialInv(seed);
    }

    /** A tick of the auto-play interval, which runs only while auto-play is
        on and something is shown. */
    method AutoPlayTick()
      requires Valid() && AutoPlayScheduled(State())
      modifies this
      ensures Valid() && State() == OnAutoPlayTick(old(State()))
    {
      currentIndex := Carousel.Next(currentIndex, |FilteredTestimonials()|);
    }

    method NextSlide()
      requires Valid()
      modifies this
      ensures Valid() && State() == OnNextSlide(old(State()))
    {
      SlideNavigation(State());
      currentIndex := Carousel.Next(currentIndex, |FilteredTestimonials()|);
      isAutoPlaying := false;
    }

    method PrevSlide()
      requires Valid()
      modifies this
      ensures Valid() && State() == OnPrevSlide(old(State()))
    {
      SlideNavigation(State());
      currentIndex := Carousel.Prev(currentIndex, |FilteredTestimonials()|);
      isAutoPlaying := false;
    }

    /** The dot for slide `index`. */
    method SelectSlide(index: int)
      requires Valid() && 0 <= index < |FilteredTestimonials()|
      modifies this
      ensures Valid() && State() == OnDot(old(State()), index)
    {
      currentIndex := index;
    }

    method SelectFilter(v: int)
      requires Valid() && FilterChoice(v)
      modifies this
      ensures Valid() && State() == OnFilter(old(State()), v)
    {
      FilterSelection(State(), v);
      filterRating := v;
      currentIndex := 0;
    }

    /** "Share Your Experience". */
    method OpenForm()
      requires Valid()
      modifies this
      ensures Valid() && State() == old(State()).(showForm := true)
    {
      showForm := true;
    }

    /** The form's "Cancel" button. */
    method CancelForm()
      requires Valid()
      modifies this
      ensures Valid() && State() == old(State()).(showForm := false)
    {
      showForm := false;
    }

    method HandleSubmit(date: string)
      requires Valid()
      modifies this
      ensures Valid() && State() == OnSubmit(old(State()), date)
    {
      SubmitEffect(State(), date);
      var review := NewTestimonial(formData, |testimonials| + 1, date);
      testimonials := [review] + testimonials;
      showForm := false;
      showToast := true;
      formData := EmptyForm;
    }

    /** The timer `handleSubmit` starts to hide the toast again. */
    method ToastTimeout()
      requires Valid()
      modifies this
      ensures Valid() && State() == old(State()).(showToast := false)
    {
      showToast := false;
    }

    method HandleChange(field: ReviewField, value: string)
      requires Valid()
      modifies this
      ensures Valid() && State() == OnFieldChange(old(State()), field, value)
    {
      formData := WithField(formData, field, value);
    }

    /** A star button of the form, numbered 1 to 5. */
    method HandleRatingChange(rating: int)
      requires Valid() && 1 <= rating <= 5
      modifies this
      ensures Valid() && State() == OnRatingChange(old(State()), rating)
    {
      formData := formData.(rating := rating);
    }
  }
}
