# AppDownload feedback widget — Dafny model

The AppDownload component is a "download the app" block with a feedback form
underneath. A visitor types a name, picks a star rating (a select offering the
placeholder 0 and the stars 1 to 5) and writes a review. Submitting appends the
review to an in-memory list and clears the form. Two buttons show the review
list or a dashboard. The dashboard gives the total number of reviews, the
average rating (0 when there are none) and how many reviews gave each of 1 to
5 stars. Showing one view hides the other.

The model has two modules:

- `Reviews` (Reviews.dfy): the `Review` record and the dashboard figures as
  pure functions of the list: `TotalReviews`, `SumRatings` (the reduce),
  `AverageRating`, `WithRating` (the filter) and `RatingCounts` (the map over
  the five stars). The per-star counts are specified against an independent
  reference: the multiplicity of each star among the ratings.
- `AppDownload` (AppDownload.dfy): a `Session` value holding the component's
  six pieces of state, and one function per handler (`Submit`,
  `ToggleAllReviews`, `ToggleDashboard`, `EditName`, `EditRating`,
  `EditReview`). An `Event` trace with `Run` replays any sequence of user
  actions, and the lemmas about it prove what holds for every sequence. The
  class `Component` keeps the same state in mutable fields. Each of its
  methods is proved to produce exactly the state its handler function gives.

The average is a `real` (the sum of ratings divided by the count). It is 0 for
an empty list, and for a non-empty list it times the count equals the sum. For
ratings the form offers (0 to 5), it is therefore 0 exactly when the list is
empty or every review was left at rating 0 (`AverageRatingRange`).

A review left at the placeholder rating 0 is still stored
(AppDownload.jsx:18-25), but it is counted only in the bucket equal to its
rating (AppDownload.jsx:45), so it falls in none of the five buckets. The
buckets therefore sum to the number of reviews rated 1 to 5. That is at most
the total, and equal to it exactly when no review has rating 0
(`BucketsCountStarred`, `CountStarredRange`, `BucketsCoverAllUnlessUnrated`); the total is the five
buckets plus the reviews rated 0 (`TotalIsBucketsPlusUnrated`).

## Model

| member | source | states |
|---|---|---|
| Reviews.AverageRating | frontend/src/components/AppDownload/AppDownload.jsx:43-44 | the average is 0 for an empty list; otherwise it times the total equals the sum of the ratings |
| Reviews.SumRatingsBounds | frontend/src/components/AppDownload/AppDownload.jsx:44 | for form ratings the sum is between 0 and 5 per review, is 0 exactly when every rating is 0, and is at least the count when every review has stars |
| Reviews.AverageRatingRange | frontend/src/components/AppDownload/AppDownload.jsx:43-44 | for form ratings the average lies in 0..5, is 0 exactly when the list is empty or every rating is 0, and is at least 1 when every review has stars |
| Reviews.WithRating | frontend/src/components/AppDownload/AppDownload.jsx:45 | the filter keeps every review with the given rating and nothing else, and is no longer than the list |
| Reviews.StarCountIsMultiplicity | frontend/src/components/AppDownload/AppDownload.jsx:45 | the filtered length equals the number of times the rating occurs among the ratings |
| Reviews.RatingCounts | frontend/src/components/AppDownload/AppDownload.jsx:45 | there are five counts, and count i is the number of reviews rated i + 1 |
| Reviews.BucketsCountStarred | frontend/src/components/AppDownload/AppDownload.jsx:45 | the five counts sum to the number of reviews rated 1 to 5, so a review with any other rating is in no bucket |
| Reviews.CountStarredRange | frontend/src/components/AppDownload/AppDownload.jsx:43-45 | the number of reviews rated 1 to 5 is at most the total, and equals it exactly when every review has stars |
| Reviews.BucketsCoverAllUnlessUnrated | frontend/src/components/AppDownload/AppDownload.jsx:45 | for form ratings, the five counts sum to at most the total, and equal it exactly when no review has rating 0 |
| Reviews.TotalIsBucketsPlusUnrated | frontend/src/components/AppDownload/AppDownload.jsx:43-45 | for form ratings, the total (the list length) equals the five per-star counts plus the number of reviews rated 0, so every review is counted exactly once |
| Reviews.RatingsAppend | frontend/src/components/AppDownload/AppDownload.jsx:44 | the sum the reduce computes grows by exactly the rating of each review appended, which is the step of the left fold starting at 0 |
| Reviews.AppendReview | frontend/src/components/AppDownload/AppDownload.jsx:43-45 | appending a review adds one to the total, its rating to the sum, and one to its own star's count only |
| AppDownload.Initial | frontend/src/components/AppDownload/AppDownload.jsx:11-16 | the starting state has an empty draft with rating 0 and no reviews, is consistent, and shows neither view |
| AppDownload.Submit | frontend/src/components/AppDownload/AppDownload.jsx:18-30 | the list grows by exactly one review equal to the draft, at the end, with earlier reviews unchanged; the form is reset to '', 0, ''; the flags are unchanged; there is no precondition, so blank drafts are appended too |
| AppDownload.ToggleAllReviews | frontend/src/components/AppDownload/AppDownload.jsx:32-35 | negates the review-list flag and clears the dashboard flag, leaving the form and the list alone; from an exclusive state it shows the list, or nothing when the list was shown |
| AppDownload.ToggleDashboard | frontend/src/components/AppDownload/AppDownload.jsx:37-40 | the mirror image: negates the dashboard flag and clears the review-list flag, leaving the form and the list alone |
| AppDownload.EditName | frontend/src/components/AppDownload/AppDownload.jsx:70-76 | the name input replaces the drafted name and changes nothing else |
| AppDownload.EditRating | frontend/src/components/AppDownload/AppDownload.jsx:78-89 | the select replaces the drafted rating and changes nothing else; a value the select offers keeps the state consistent |
| AppDownload.EditReview | frontend/src/components/AppDownload/AppDownload.jsx:91-96 | the text area replaces the drafted text and changes nothing else |
| AppDownload.RunKeepsExclusive | frontend/src/components/AppDownload/AppDownload.jsx:32-40 | any sequence of actions from a state with at most one view shown keeps at most one view shown |
| AppDownload.ReachableViewsExclusive | frontend/src/components/AppDownload/AppDownload.jsx:15-16 | from the initial state (both flags false), no sequence of actions shows both views |
| AppDownload.RunKeepsConsistent | frontend/src/components/AppDownload/AppDownload.jsx:11-40 | actions the form can produce keep the views exclusive and every drafted and stored rating in 0..5 |
| AppDownload.RunOnlyAppends | frontend/src/components/AppDownload/AppDownload.jsx:18-30 | after any sequence of actions the earlier reviews are still first, in order, and the list has grown by the number of submissions |
| AppDownload.ReachableStatesConsistent | frontend/src/components/AppDownload/AppDownload.jsx:11-30 | from the initial state every form-driven run is consistent and holds exactly one review per submission |
| AppDownload.SubmitUpdatesDashboard | frontend/src/components/AppDownload/AppDownload.jsx:18-45 | a submission adds one to the total and to the drafted rating's count only; so a rating-0 submission leaves all five counts as they were |
| AppDownload.Component.constructor | frontend/src/components/AppDownload/AppDownload.jsx:11-16 | the component starts in `Initial`: an empty form, rating 0, no reviews, both views hidden; `Valid` holds |
| AppDownload.Component.HandleSubmit | frontend/src/components/AppDownload/AppDownload.jsx:18-30 | the fields become exactly `Submit` of the old state: the draft is appended to the list and the form is cleared; `Valid` (consistency) is kept |
| AppDownload.Component.HandleSeeAllReviews | frontend/src/components/AppDownload/AppDownload.jsx:32-35 | the fields become exactly `ToggleAllReviews` of the old state; `Valid` (consistency) is kept |
| AppDownload.Component.HandleDashboard | frontend/src/components/AppDownload/AppDownload.jsx:37-40 | the fields become exactly `ToggleDashboard` of the old state; `Valid` (consistency) is kept |
| AppDownload.Component.SetName | frontend/src/components/AppDownload/AppDownload.jsx:74 | only the name field changes, to the typed text |
| AppDownload.Component.SetRating | frontend/src/components/AppDownload/AppDownload.jsx:80 | only the rating field changes, to a value the select offers |
| AppDownload.Component.SetReview | frontend/src/components/AppDownload/AppDownload.jsx:94 | only the review field changes, to the typed text |

## Left out

- The markup: the promotional text, the store badges, the review list and dashboard rendering, the "No reviews yet." placeholder and the index-based keys (AppDownload.jsx:59-148). These are presentation only.
- The pie chart: the chart library registration, the chart data and its colour palette (AppDownload.jsx:4-8, 47-57, 143). These are calls into a foreign charting library.
- The image assets (AppDownload.jsx:3, 63-64). These are static resources.
- AverageRating: the one-decimal `toFixed(1)` rendering is not modelled, and neither is the fact that a non-empty average is a string while the empty-list guard gives the number 0. The average is the exact real quotient.
- The DOM event objects and the `Number(...)` conversion of the select's value (AppDownload.jsx:74, 80, 94). Only their effect on the state is modelled; that the select offers only 0 to 5 is the requires of `SetRating` and the `FromForm` condition on traces.
- React's scheduling of state updates and re-rendering. Each handler is modelled as one atomic step that reads the state of the render it was called in, which is how the handlers' paired updates take effect.
