# AyudCraft review widget — a Dafny model

This project models the review widget of the AyudCraft storefront, `script.js`. Customers rate a product
on five criteria and write a review, optionally with a profile photo. The script scores the review with a
weighted sum (the SAW method), validates it, uploads the photo to the media host, and posts the review to
the review service. A separate part of the page loads the public testimonials and renders each one as a
card with a five-star strip and either the photo or the reviewer's initials.

Modules, one per concern of the script:

- `Wrappers` — `Option` and `Result`.
- `Criteria` — the five criteria B1..B5 with their weights and display names.
  - Ratings are a map from criterion to star count.
  - A missing key reads as 0, as `ratings[key] || 0` does.
- `Scoring` — `calculateTotalScore` in exact integer arithmetic.
  - Weight × 20 gives the multipliers 2, 6, 3, 8, 1.
  - The score is `2·B1 + 6·B2 + 3·B3 + 8·B4 + B5`.
- `Text` — the JavaScript string built-ins the script relies on: `trim`, `split` on one character, `join`,
  and upper-casing of one character.
- `Validation` — `validateForm`: the error list, its order, and `isValid`.
- `Upload` — `uploadToCloudinary`:
  - the checks made before any request;
  - how the media host's answer becomes a URL or an error message.
- `ReviewApi` — `sendReviewToAPI`: how the review service's answer becomes success or an error message.
- `Session` — the globals `currentProductId`, `currentProductName`, `currentRatings` and `isSubmitting` as the
  class `ReviewSession`, together with the handlers that change them.
  - `handleSubmit` suspends at each `await`. It is split into:
    - `HandleSubmit`: the guard, validation and scoring;
    - `SendFirstRequest`: the avatar checks, then the upload or the POST;
    - `CompleteUpload` and `CompleteSend`: the continuations.
  - The continuations still waiting are kept in `inFlight`.
  - Each network answer is a parameter of its continuation, so every outcome is covered.
  - The ghost fields `posted` and `uploads` record what was sent.
  - The invariant `Valid()` holds in every state:
    - every posted or pending review has trimmed fields, passes validation, and has ratings in 0..5;
    - its `totalScore` is the SAW score of exactly the ratings it carries;
    - a review waiting for the review service's answer has been POSTed;
    - every uploaded file passed the checks.
- `Testimonials` — `getInitials` and the card derivations of `loadTestimonials`: star count, star strip,
  avatar choice, and the choice between cards and the two placeholders.

Where the script and its design description disagree, the model follows the script:

- `openReviewModal` resets the product and the ratings but leaves `isSubmitting` alone. It is not refused
  while a submission runs.
- `closeModal` resets the session only when the modal element exists. The model takes that as a parameter.
- `closeModal` clears `isSubmitting` while a request may still be pending. So the flag does not serialise
  submissions: after a close, a second submission is accepted while the first is still waiting.
  `Session.SecondSubmissionAfterClose` shows this on a concrete session.
- A finishing submission clears the flag even if another one is pending (`CompleteSend`).
- A non-2xx answer from the media host is thrown inside `uploadToCloudinary`'s own `try` and wrapped again.
  The message therefore carries its prefix twice: `Upload failed: Upload failed: 500 Internal Server Error`.
  `Upload.UploadOutcome` keeps this as written.

## Model

| member | source | states |
|---|---|---|
| Criteria.Index | script.js:25-29 | each criterion has a position in the fixed order B1..B5, the order in which the script walks the criteria |
| Criteria.WeightsSumToOne | script.js:25-29 | the five weights (10, 30, 15, 40 and 5 hundredths) sum to one |
| Criteria.Multiplier | script.js:59 | the per-criterion factor is exactly weight × 20 (as 2, 6, 3, 8, 1) |
| Criteria.RatingOf | script.js:58 | a criterion missing from the ratings counts as 0; a present one counts as its value |
| Criteria.DisplayNameInjective | script.js:25-29 | no two criteria share a display name |
| Scoring.Score | script.js:53-63 | with every rating in 0..5 the score lies in 0..100; with every rating in 1..5 it lies in 20..100 |
| Scoring.CalculateTotalScore | script.js:53-63 | the loop's total equals the closed-form SAW score; within 0..100 when every rating is in 0..5 |
| Scoring.SumOverAll | script.js:56-60 | summing the contributions of B1..B5 one by one gives the closed-form score |
| Scoring.ScoreExtremes | script.js:53-63 | all fives give 100; all zeros give 0; empty ratings give 0 |
| Scoring.ScoreMissingKeyIsZero | script.js:58 | leaving a key out scores the same as rating it 0 |
| Scoring.ScoreStep | script.js:56-60 | one more star on criterion c raises the score by exactly c's multiplier |
| Scoring.UniformScore | script.js:53-63 | rating every criterion k gives 20·k |
| Text.Split | script.js:671 | `split(' ')` yields at least one piece, and no piece contains the separator |
| Text.SplitJoin | script.js:671 | joining the pieces of `split` with the separator gives back the original string |
| Text.TrimStartShape | script.js:490-491 | trimming the front removes only leading white space and leaves a suffix that does not start with it |
| Text.TrimEndShape | script.js:490-491 | trimming the back removes only trailing white space and leaves a prefix that does not end with it |
| Text.TrimShape | script.js:490-491 | neither end of a trimmed string is white space |
| Text.TrimIdempotent | script.js:74 | trimming an already trimmed field changes nothing, so validating the trimmed fields trims nothing more |
| Text.TrimUntrimmable | script.js:490-491 | a string without white space at either end is its own trim |
| Text.Utf16Length | script.js:74 | `length` counts UTF-16 code units: at least one and at most two per character |
| Text.Utf16LengthBmp | script.js:74 | for text inside the Basic Multilingual Plane the length is the character count |
| Text.Upper | script.js:675 | upper-casing maps a-z to A-Z, leaves other characters alone, and never yields a lower-case letter |
| Validation.ValidateForm | script.js:70-95 | the error list is the messages of all violations in checking order; `isValid` holds iff the list is empty iff the form is acceptable, with lengths counted in UTF-16 code units as `length` does |
| Validation.PushRatingErrors | script.js:84-89 | the rating loop appends one message per criterion whose rating is missing, zero or below 1, in criterion order, after the field errors |
| Validation.Messages | script.js:70-95 | one message per violation |
| Validation.MessagesAt | script.js:70-95 | the k-th message is the message of the k-th violation |
| Validation.MessageNamesCriterion | script.js:86-87 | a rating error quotes the display name of its criterion |
| Validation.MessageInjective | script.js:75-89 | distinct violations have distinct messages, so the list says exactly which checks failed |
| Validation.RatingViolationsSound | script.js:84-89 | every rating violation is for a criterion whose rating is below 1; no two violations are equal, so there is at most one per criterion |
| Validation.RatingViolationsComplete | script.js:84-89 | every criterion whose rating is below 1 has a violation |
| Validation.RatingViolationsNone | script.js:84-89 | with every rating at least 1 there is no rating violation |
| Validation.RatingViolationsSorted | script.js:84-89 | rating violations follow the criterion order B1..B5 |
| Validation.FieldViolationsExact | script.js:73-81 | the name error appears iff the trimmed name is shorter than 2 UTF-16 code units; the comment error appears iff the trimmed comment is shorter than 10 |
| Validation.RatingViolationsExact | script.js:84-89 | the error for criterion c appears iff c's rating is below 1 |
| Validation.FieldViolationsOrdered | script.js:73-81 | the name error precedes the comment error |
| Validation.ViolationsOrdered | script.js:70-95 | errors come in the order name, comment, B1, B2, B3, B4, B5 |
| Validation.ViolationsAtMostSeven | script.js:70-95 | there are at most seven errors |
| Validation.NoViolationsIffFormOk | script.js:92-94 | there is no violation iff the name, the comment and all five ratings are acceptable |
| Validation.InCheckingOrderConcat | script.js:70-95 | a list of lower-ranked errors followed by a list of higher-ranked ones keeps the checking order |
| Validation.EmptyDraftViolations | script.js:70-95 | an empty form gets exactly the seven errors, in order |
| Validation.NameLengthInCodeUnits | script.js:74 | a name of one character outside the Basic Multilingual Plane (two code units) is long enough; a one-letter name is not |
| Validation.ShortNameOnly | script.js:73-76 | a one-letter name with a good comment and full ratings gets only the name error |
| Upload.Precheck | script.js:182-195 | the rejection is for a missing file first, then for a size strictly over 5 MiB, then for a type outside JPEG/PNG/GIF/WebP; no rejection iff all three checks pass |
| Upload.SizeBoundary | script.js:187 | a file of exactly 5 MiB passes the size check; one byte more is rejected as too large |
| Upload.UploadOutcome | script.js:209-223 | the upload succeeds iff the host returned a URL, and yields that URL. Every error message starts with "Upload failed: ". A non-2xx status line carries the prefix twice. The host's own error message is used when it sent one, and "Upload error" otherwise. A network failure's message is passed through |
| Upload.UploadToCloudinary | script.js:179-225 | success iff the checks pass and the host returned a URL; a rejected file fails with the check's message behind the prefix |
| Upload.RejectionIgnoresNetwork | script.js:182-204 | a rejected file fails identically whatever the network would answer: the checks decide before any request |
| ReviewApi.SendOutcome | script.js:236-258 | the POST succeeds iff the service answered 2xx with a JSON body. Every error starts with "Failed to send review: ". The server's own message is used when it sent one, and "API Error: " with the status line otherwise. A network failure's message is passed through |
| Session.ZeroRatingsWellFormed | script.js:39-41 | the all-zero ratings have the five keys, each within 0..5 |
| Session.SetRatingWellFormed | script.js:277 | setting one criterion to 1..5 keeps all five keys within 0..5 |
| Session.DraftOk | script.js:487-504 | a review built from fields that pass validation is trimmed, valid, and scored from its own ratings copy |
| Session.ReviewScoreBounds | script.js:504 | every review that passed validation scores between 20 and 100 |
| Session.ReviewSession.constructor | script.js:37-42 | the page starts with no product, all-zero ratings, the flag clear and nothing pending |
| Session.ReviewSession.OpenReviewModal | script.js:328-333 | sets the product, resets all five ratings to 0, and leaves the flag and pending submissions unchanged |
| Session.ReviewSession.CloseModal | script.js:353-363 | with the modal present, clears the product, resets the ratings and clears the flag; otherwise changes nothing; never touches pending requests |
| Session.ReviewSession.ClickStar | script.js:275-278 | star i sets that criterion to i+1 and leaves every other criterion, the product and the flag unchanged |
| Session.ReviewSession.HandleSubmit | script.js:474-504 | while a submission runs it returns with no state change. Otherwise an invalid form fails with the validation messages joined by newlines, sending nothing. A valid form proceeds with a review of the trimmed fields, a copy of the ratings, no avatar URL and the score of that copy. Every failure leaves the flag clear |
| Session.ReviewSession.SendFirstRequest | script.js:507-519 | with a non-empty avatar file, a file that fails the checks aborts with nothing sent and the flag clear, and a file that passes is uploaded; without one, the review is POSTed at once |
| Session.ReviewSession.CompleteUpload | script.js:511-519 | a failed upload reports its error, clears the flag and posts nothing; a successful one posts the pending review with the returned URL and nothing else changed |
| Session.ReviewSession.CompleteSend | script.js:519-536 | the flag is clear afterwards on both outcomes. Success reports the pending review, which is among the POSTed reviews, is valid and scores 20..100. Failure reports the service's error |
| Session.RateAll | script.js:275-278 | clicking a star on every criterion leaves every rating acceptable |
| Session.SecondSubmissionAfterClose | script.js:353-363 | closing the modal while a POST is pending lets a second submission start: two submissions are then in flight |
| Testimonials.FirstLetters | script.js:672-678 | no more letters than pieces |
| Testimonials.FirstLettersUpper | script.js:675 | no collected initial is a lower-case letter |
| Testimonials.FirstLettersOfNonEmpty | script.js:672-678 | the k-th collected letter is the upper-cased first character of the k-th non-empty piece; empty pieces contribute nothing |
| Testimonials.FirstLettersPrefix | script.js:677 | letters collected from a prefix of the pieces begin the full list, so stopping early keeps a prefix |
| Testimonials.Initials | script.js:669-680 | at most two initials, none a lower-case letter |
| Testimonials.SplitWord | script.js:671 | a word without spaces splits into itself |
| Testimonials.SplitLeadingWord | script.js:671 | a word followed by a space splits off as the first piece |
| Testimonials.TwoWordInitials | script.js:669-680 | a two-word name gives the upper-cased first letter of each word |
| Testimonials.AyuLestari | script.js:669-680 | "Ayu Lestari" gives "AL" |
| Testimonials.EmptyNameInitials | script.js:670 | the empty name gives no initials |
| Testimonials.GetInitials | script.js:669-680 | the loop with its early `break` yields exactly the first two collected letters, or all of them if fewer |
| Testimonials.StarCount | script.js:701 | the star count is the score divided by 20 rounded to nearest (halves up); a score in 0..100 gives 0..5 stars |
| Testimonials.StarCountExamples | script.js:701 | 80 gives 4, 90 rounds up to 5, 89 gives 4 |
| Testimonials.SubmittedReviewStars | script.js:701 | a review whose ratings are all 1..5 shows 1..5 stars |
| Testimonials.UniformRatingStars | script.js:701 | rating every criterion k stars shows exactly k stars on the card |
| Testimonials.StripOf | script.js:702-705 | the strip has five symbols |
| Testimonials.StripOfAt | script.js:702-705 | position i of the strip is filled iff i is below the star count |
| Testimonials.StarStrip | script.js:702-705 | the loop builds exactly the five-symbol strip with the first star-count positions filled |
| Testimonials.ChooseAvatar | script.js:712-717 | the photo is shown iff the URL exists and starts with "http"; otherwise the initials are shown |
| Testimonials.CardOf | script.js:707-722 | a card carries the review's comment and name and a five-symbol strip |
| Testimonials.CardsOf | script.js:700-723 | one card per review |
| Testimonials.CardsOfAt | script.js:700-723 | the k-th card is the card of the k-th review |
| Testimonials.RenderCard | script.js:700-723 | the rendering of one review is its card |
| Testimonials.LoadTestimonials | script.js:683-741 | cards appear iff the feed answered with success and at least one review, one card per review in order; the failure placeholder appears iff the request or parsing failed; otherwise the empty placeholder appears |

## Left out

- DOM and visual code is not modelled: the loading overlay, notifications, the form HTML, modal event wiring, star
  hover classes, the avatar preview and the HTML templating of cards. Star hover changes no state.
- The actual `fetch` calls and JSON/FormData handling are not modelled. Each answer is an abstract value.
  - A media-host answer that is 2xx without `secure_url` is folded into `Uploaded`.
  - A feed body without `data` is folded into `FeedNetworkError` when `success` is true.
  - A 2xx answer whose body is not JSON is folded into `NetworkError` (upload) or `ApiNetworkError` (review service).
    Both end up in the same `catch`.
- `loadTestimonials` when the testimonial container is missing: it then returns at once. The model starts from an
  existing container.
- The duplicated card content appended for the scrolling animation is not modelled.
- The two-second `setTimeout` that closes the modal after a successful submission is not modelled. It is a later call
  of `CloseModal(true)` by the caller.
- The global `error` and `unhandledrejection` listeners, which also clear `isSubmitting`, are not modelled. They are
  asynchronous event plumbing outside the submission pipeline.
- The fallback notification text for an error with an empty message is not modelled. Every error the pipeline raises
  has a non-empty message.
- Session.ReviewSession.HandleSubmit: the form fields are taken as strings. A missing `reviewerName` or `comment` field,
  which would throw on `.trim()`, is not modelled.
- Scoring.CalculateTotalScore: the floating-point products `weight * 20` and the rounding to two decimals are replaced by
  exact integer multipliers. For whole-star ratings the results agree.
- Testimonials.StarCount: `total_score` is taken to be an integer. A fractional score from the feed is not modelled.
- Text.Upper: ASCII upper-casing only. `toUpperCase` on other letters, which can lengthen a string, is not modelled.
- Testimonials.GetInitials: characters are Unicode scalar values. `charAt(0)` on a UTF-16 surrogate pair is not
  modelled.
- The ISO timestamp, the configuration (endpoints, upload preset, cloud name) and console logging are not modelled.
