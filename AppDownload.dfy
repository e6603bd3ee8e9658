/** The session state of the AppDownload widget: the three form fields, the
    list of submitted reviews and the two visibility flags, with the handlers
    that change them. Each handler is given as a function on a snapshot of the
    state (a `Session`), and the `Component` class holds the same state in
    fields whose methods are proved to follow those functions. */
module AppDownload {
  import opened Reviews

  /** A snapshot of the component's state: the draft in the form (`name`,
      `rating`, `review`), the submitted reviews in submission order, and
      whether the review list and the dashboard are shown. */
  datatype Session = Session(
    name: string,
    rating: int,
    review: string,
    reviews: seq<Review>,
    showAllReviews: bool,
    showDashboard: bool)
  {
    /** The review the form would submit now. */
    function Draft(): Review { Review(name, rating, review) }
  }


  /** At most one of the review list and the dashboard is shown. */
  predicate Exclusive(s: Session) {
    !(s.showAllReviews && s.showDashboard)
  }

  /** What every state reached through the form satisfies: the views are
      exclusive and every rating, drafted or stored, is one the select offers. */
  predicate Consistent(s: Session) {
    Exclusive(s) && IsFormRating(s.rating) && AllFormRatings(s.reviews)
  }

  /** What the page shows below the form. */
  datatype View = Hidden | AllReviews | Dashboard

  function ViewOf(s: Session): View
    requires Exclusive(s)
  {
    if s.showAllReviews then AllReviews
    else if s.showDashboard then Dashboard
    else Hidden
  }

  /** The state the component starts in: an empty form with the rating at the
      placeholder, no reviews, both views hidden. */
  function Initial(): (s: Session)
    ensures s.Draft() == Review("", 0, "") && s.reviews == []
    ensures Consistent(s) && ViewOf(s) == Hidden
  {
    Session("", 0, "", [], false, false)
  }

  /** Submit: the draft is appended to the list, whatever it holds, and the
      form is cleared. */
  function Submit(s: Session): (t: Session)
    ensures |t.reviews| == |s.reviews| + 1
    ensures t.reviews[..|s.reviews|] == s.reviews
    ensures t.reviews[|s.reviews|] == Review(s.name, s.rating, s.review)
    ensures t.name == "" && t.rating == 0 && t.review == ""
    ensures t.showAllReviews == s.showAllReviews && t.showDashboard == s.showDashboard
    ensures Consistent(s) ==> Consistent(t)
  {
    s.(reviews := s.reviews + [s.Draft()], name := "", rating := 0, review := "")
  }

  /** The "See All Reviews" button: flips the review list and hides the
      dashboard. From an exclusive state, it shows the list unless the list was
      already shown, in which case nothing is shown. */
  function ToggleAllReviews(s: Session): (t: Session)
    ensures t.showAllReviews == !s.showAllReviews && !t.showDashboard
    ensures t.name == s.name && t.rating == s.rating && t.review == s.review
    ensures t.reviews == s.reviews
    ensures Exclusive(t)
    ensures Exclusive(s) ==> ViewOf(t) == if ViewOf(s) == AllReviews then Hidden else AllReviews
  {
    s.(showAllReviews := !s.showAllReviews, showDashboard := false)
  }

  /** The "Show Dashboard" button: flips the dashboard and hides the review
      list; the mirror image of `ToggleAllReviews`. */
  function ToggleDashboard(s: Session): (t: Session)
    ensures t.showDashboard == !s.showDashboard && !t.showAllReviews
    ensures t.name == s.name && t.rating == s.rating && t.review == s.review
    ensures t.reviews == s.reviews
    ensures Exclusive(t)
    ensures Exclusive(s) ==> ViewOf(t) == if ViewOf(s) == Dashboard then Hidden else Dashboard
  {
    s.(showDashboard := !s.showDashboard, showAllReviews := false)
  }

  /** Typing in the name input replaces the drafted name and nothing else. */
  function EditName(s: Session, text: string): (t: Session)
    ensures t.name == text && t.(name := s.name) == s
  {
    s.(name := text)
  }

  /** Choosing in the rating select replaces the drafted rating. */
  function EditRating(s: Session, value: int): (t: Session)
    ensures t.rating == value && t.(rating := s.rating) == s
    ensures Consistent(s) && IsFormRating(value) ==> Consistent(t)
  {
    s.(rating := value)
  }

  /** Typing in the review text area replaces the drafted text. */
  function EditReview(s: Session, text: string): (t: Session)
    ensures t.review == text && t.(review := s.review) == s
  {
    s.(review := text)
  }

  /** A user action on the widget. */
  datatype Event =
    | NameInput(text: string)
    | RatingInput(value: int)
    | ReviewInput(text: string)
    | SubmitClick
    | SeeAllReviewsClick
    | DashboardClick

  /** An action the form can produce: the select only offers 0 to 5. */
  predicate FromForm(e: Event) {
    e.RatingInput? ==> IsFormRating(e.value)
  }

  function Step(s: Session, e: Event): Session
  {
    match e
    case NameInput(text) => EditName(s, text)
    case RatingInput(value) => EditRating(s, value)
    case ReviewInput(text) => EditReview(s, text)
    case SubmitClick => Submit(s)
    case SeeAllReviewsClick => ToggleAllReviews(s)
    case DashboardClick => ToggleDashboard(s)
  }

  /** The state after handling the actions in order. */
  function Run(s: Session, events: seq<Event>): Session
    decreases |events|
  {
    if events == [] then s else Run(Step(s, events[0]), events[1..])
  }

  /** The number of submissions among the actions. */
  function Submissions(events: seq<Event>): nat
  {
    if events == [] then 0
    else (if events[0].SubmitClick? then 1 else 0) + Submissions(events[1..])
  }

  /** No sequence of actions shows both views at once, once they start out
      exclusive. */
  lemma {:induction false} RunKeepsExclusive(s: Session, events: seq<Event>)
    requires Exclusive(s)
    ensures Exclusive(Run(s, events))
    decreases |events|
  {
    if events != [] {
      RunKeepsExclusive(Step(s, events[0]), events[1..]);
    }
  }

  /** Actions from the form keep the whole state consistent. */
  lemma {:induction false} RunKeepsConsistent(s: Session, events: seq<Event>)
    requires Consistent(s)
    requires forall i :: 0 <= i < |events| ==> FromForm(events[i])
    ensures Consistent(Run(s, events))
    decreases |events|
  {
    if events != [] {
      RunKeepsConsistent(Step(s, events[0]), events[1..]);
    }
  }

  /** The review list only grows: the reviews present before are kept in
      place and order, and each submission adds exactly one. */
  lemma {:induction false} RunOnlyAppends(s: Session, events: seq<Event>)
    ensures |Run(s, events).reviews| == |s.reviews| + Submissions(events)
    ensures Run(s, events).reviews[..|s.reviews|] == s.reviews
    decreases |events|
  {
    if events != [] {
      var t := Step(s, events[0]);
      RunOnlyAppends(t, events[1..]);
      assert t.reviews[..|s.reviews|] == s.reviews;
    }
  }

  /** From the initial state, whatever the user does, the page is in one of
      three views: nothing, the review list or the dashboard. */
  lemma ReachableViewsExclusive(events: seq<Event>)
    ensures Exclusive(Run(Initial(), events))
  {
    RunKeepsExclusive(Initial(), events);
  }

  /** Every state the widget reaches from its initial state through the form
      holds only ratings the select offers, and one review per submission. */
  lemma ReachableStatesConsistent(events: seq<Event>)
    requires forall i :: 0 <= i < |events| ==> FromForm(events[i])
    ensures Consistent(Run(Initial(), events))
    ensures |Run(Initial(), events).reviews| == Submissions(events)
  {
    RunKeepsConsistent(Initial(), events);
    RunOnlyAppends(Initial(), events);
  }

  /** A submission changes the dashboard by one review: the total grows by
      one and only the bucket of the drafted rating grows; a draft left at the
      placeholder rating 0 lands in no bucket. */
  lemma SubmitUpdatesDashboard(s: Session)
    ensures TotalReviews(Submit(s).reviews) == TotalReviews(s.reviews) + 1
    ensures SumRatings(Submit(s).reviews) == SumRatings(s.reviews) + s.rating
    ensures forall i :: 0 <= i < Buckets ==>
      RatingCounts(Submit(s).reviews)[i] == RatingCounts(s.reviews)[i] + (if s.rating == i + 1 then 1 else 0)
  {
    AppendReview(s.reviews, s.Draft());
  }

  /** The component: the six pieces of state it keeps, updated in place by
      its handlers. */
  class Component {
    var name: string
    var rating: int
    var review: string
    var reviews: seq<Review>
    var showAllReviews: bool
    var showDashboard: bool

    /** The component's state as a value. */
    function State(): Session
      reads this
    {
      Session(name, rating, review, reviews, showAllReviews, showDashboard)
    }

    predicate Valid()
      reads this
    {
      Consistent(State())
    }

    constructor ()
      ensures State() == Initial() && Valid()
    {
      name, rating, review := "", 0, "";
      reviews := [];
      showAllReviews, showDashboard := false, false;
    }

    method HandleSubmit()
      requires Valid()
      modifies this
      ensures State() == Submit(old(State()))
      ensures Valid()
    {
      var newReview := Review(name, rating, review);
      reviews := reviews + [newReview];
      name := "";
      rating := 0;
      review := "";
    }

    method HandleSeeAllReviews()
      requires Valid()
      modifies this
      ensures State() == ToggleAllReviews(old(State()))
      ensures Valid()
    {
      showAllReviews, showDashboard := !showAllReviews, false;
    }

    method HandleDashboard()
      requires Valid()
      modifies this
      ensures State() == ToggleDashboard(old(State()))
      ensures Valid()
    {
      showDashboard, showAllReviews := !showDashboard, false;
    }

    method SetName(text: string)
      requires Valid()
      modifies this
      ensures State() == EditName(old(State()), text)
      ensures Valid()
    {
      name := text;
    }

    method SetRating(value: int)
      requires Valid() && IsFormRating(value)
      modifies this
      ensures State() == EditRating(old(State()), value)
      ensures Valid()
    {
      rating := value;
    }

    method SetReview(text: string)
      requires Valid()
      modifies this
      ensures State() == EditReview(old(State()), text)
      ensures Valid()
    {
      review := text;
    }
  }

  /** A session driven through the component: a blank submission is still
      stored and counted in no bucket, and the two buttons exclude each other. */
  method Walkthrough()
  {
    var c := new Component();
    c.SetName("Alice");
    c.SetRating(5);
    c.SetReview("Great!");
    c.HandleSubmit();
    assert c.reviews == [Review("Alice", 5, "Great!")];
    assert c.name == "" && c.rating == 0 && c.review == "";
    c.HandleSubmit();
    assert c.reviews == [Review("Alice", 5, "Great!"), Review("", 0, "")];
    assert c.reviews[1..] == [Review("", 0, "")] && c.reviews[1..][1..] == [];
    assert Ratings(c.reviews[1..]) == [0];
    assert Ratings(c.reviews) == [5, 0];
    assert multiset(Ratings(c.reviews)) == multiset{0, 5};
    assert RatingCounts(c.reviews) == [0, 0, 0, 0, 1];
    assert TotalReviews(c.reviews) == 2;
    c.HandleSeeAllReviews();
    c.HandleDashboard();
    assert c.showDashboard && !c.showAllReviews;
    c.HandleSeeAllReviews();
    assert c.showAllReviews && !c.showDashboard;
    assert c.Valid();
  }
}
