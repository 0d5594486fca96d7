# CaterEase catering directory: a Dafny model

CaterEase is a small web directory of catering services. It lists caterers from a built-in catalog and lets visitors search it by name or service area. Each caterer page shows star ratings and reviews, and visitors can leave a review, which the server validates. There is an "AI recommendation" dialog. It is meant to send the visitor's preferences and a condensed form of the catalog to a language model, and to show the caterer the model picks. A separate page lets a caterer apply to be listed.

This project models the logic beneath that UI:

- `CatalogData` (`src/lib/data.ts`): the catalog records, the `findImage` lookup with its fallback image, and the three-caterer fixture, with lemmas about its invariants.
- `ReviewIntake` (`src/app/actions.ts`): the server-side review schema, `submitReview` with the clock and the id as parameters, and the input guard of `getAIRecommendation`.
- `ReviewSection` (`src/components/review-section.tsx`): the client review schema, the star-button highlight rule, and the prepend of a new review. It has two classes. `ReviewSection` holds the review list. `ReviewForm` models the form's values, its pending flag, and its submit.
- `PromptSerialiser` (`src/ai/flows/recommend.ts`, lines 70-77): the map from caterers to the condensed `CatererInfo` records handed to the model, built on a recursive `Join`.
- `ListingSearch` (`src/app/page.tsx`): the case-insensitive search filter and the empty-result branch.
- `Recommender` (`src/components/ai-recommender.tsx`): the dialog's form schema and its state machine over `open`, `isLoading`, `result` and `error`. The pure transitions are proved first. The class `AIRecommender` then carries them out field by field, and the awaited server reply is a parameter.
- `ProviderApplication` (`src/app/add-provider/page.tsx`): the provider schema and the reset after an accepted submit.
- `StarRating` (`src/components/star-rating.tsx`): the fill rule for a row of stars.
- `Strings`: ASCII lower-casing, substring search and the UTF-16 length of a string, which stand in for JavaScript's `toLowerCase`, `includes` and `length`.
- `Wrappers`: the `Option` type.

Ratings are Dafny `real`s, which are exact rationals. A zod `.min(n)` on a string compares JavaScript's `length`, which counts UTF-16 code units. A Dafny `string` counts Unicode scalar values, so every schema compares `Strings.Utf16Length`, where a character outside the Basic Multilingual Plane counts twice.

The contents of the placeholder-image list are not part of this model. The fixture is therefore a function of that list (`CatalogData.Fixture`), and the fixture lemmas are stated for `CatalogData.Catalog` with arbitrary resolved artwork, so they hold whatever the list contains.

Three behaviours of the code are easy to misread, and the model keeps them as written:

- The server schema never checks a review's `catererId`, not even for being empty or in the catalog (`ReviewIntake.CatererIdUnchecked`).
- The server schema bounds the rating to [1, 5] but has no integer check, so 2.5 is accepted (`ReviewIntake.FractionalRatingAccepted`).
- `getAIRecommendation` is typed to return a `Caterer`, but it returns the string or null that `recommendCaterer` produces, unchanged. The model keeps the string.

## Model

| member | source | states |
|---|---|---|
| CatalogData.FindPlaceholder | src/lib/data.ts:4 | The index found is the first placeholder with that id; no index means no placeholder has it. |
| CatalogData.FindImage | src/lib/data.ts:3-10 | The result is the url and hint of the first placeholder whose id equals the argument. If none matches, the result is the fallback `https://picsum.photos/seed/error/200/200` with hint `placeholder`. It is total. |
| CatalogData.FirstMatchUnique | src/lib/data.ts:4 | At most one index is the first match for an id. |
| CatalogData.FindImageShadowsLaterDuplicates | src/lib/data.ts:4 | Appending any placeholders after the first match, with that id or another, does not change the lookup; the earlier entry wins. |
| CatalogData.FixtureArtwork | src/lib/data.ts:45-139 | The fixture has three entries. Entry i+1 has the `findImage` result for `logo<i+1>` as its logo, and those for `gallery<i+1>-1` to `gallery<i+1>-3` as its gallery, in order. |
| CatalogData.GourmetDelightsFields | src/lib/data.ts:46-76 | Gourmet Delights has id `gourmet-delights`, rating 4.8 and reviewsCount 124. It has two reviews with ids 1 and 2 and ratings 5 and 4, and two menus, Appetizers and Main Courses. |
| CatalogData.FeastCreatorsFields | src/lib/data.ts:77-107 | Feast Creators has id `feast-creators` and rating 4.5. It has two reviews with ids 1 and 2, and two menus, BBQ Packages and Fusion Tacos. |
| CatalogData.SimplyServedFields | src/lib/data.ts:108-138 | Simply Served has id `simply-served` and rating 4.9. It has two reviews with ids 1 and 2, and two menus, Salad Bowls and Main Plates. |
| CatalogData.FixtureIdsDistinct | src/lib/data.ts:45-139 | The catalog has three caterers, with ids `gourmet-delights`, `feast-creators` and `simply-served`, pairwise distinct. |
| CatalogData.FixtureRatingsInRange | src/lib/data.ts:45-139 | Every caterer rating lies in [0, 5]. Every review rating is a whole number from 1 to 5. |
| CatalogData.FixtureReviewsCountNotReconciled | src/lib/data.ts:53-75 | For every caterer, `reviewsCount` differs from the number of listed reviews (124 against 2 for the first). |
| CatalogData.FixtureReviewIdsLocal | src/lib/data.ts:72-137 | Review ids are distinct within each caterer, and every caterer uses the same ids, 1 and 2. |
| CatalogData.BbqCategories | src/lib/data.ts:56-133 | Only Feast Creators has a menu category that contains "BBQ". |
| CatalogData.FixtureSingleBbqCategory | src/lib/data.ts:89 | Caterer i has a "BBQ" category if and only if i is 1 (Feast Creators). |
| ReviewIntake.ReviewSchemaAccepts | src/app/actions.ts:7-12 | Accepts exactly when 1 <= rating <= 5, the comment has at least 10 UTF-16 code units and the author at least 2. The catererId may be any string. |
| ReviewIntake.DatePart | src/app/actions.ts:39 | The date is a prefix of the timestamp, contains no 'T', and ends exactly at the first 'T' when there is one. |
| ReviewIntake.DatePartUnique | src/app/actions.ts:39 | Any string with those three properties is the date, so they define it. |
| ReviewIntake.DatePartOfTimestamp | src/app/actions.ts:39 | `2023-10-15T08:30:00.000Z` gives `2023-10-15`. |
| ReviewIntake.SubmitReview | src/app/actions.ts:7-42 | A submission is accepted exactly when 1 <= rating <= 5, the comment has at least 10 UTF-16 code units and the author at least 2. A refusal carries "Invalid data. Please check your submission." and no review. An accepted review echoes catererId, rating, comment and author. Its id is the clock value, and its date is the timestamp's part before the first 'T'. It is a pure function of the submission and the clock, so the catalog is untouched. |
| ReviewIntake.RatingBounds | src/app/actions.ts:9-26 | Ratings 0, 0.99, 5.01 and 6 are refused with the error message. Ratings 1 and 5 are accepted. |
| ReviewIntake.FractionalRatingAccepted | src/app/actions.ts:9 | A rating of 2.5 is accepted and stored as 2.5. |
| ReviewIntake.CommentBoundary | src/app/actions.ts:10 | A 9-character comment is refused and a 10-character one is accepted. |
| ReviewIntake.AuthorBoundary | src/app/actions.ts:11 | A 1-character author is refused and a 2-character one is accepted. |
| ReviewIntake.AstralAuthorAccepted | src/app/actions.ts:11 | The single emoji U+1F600 is a long enough author name, because it is two code units. |
| ReviewIntake.CatererIdUnchecked | src/app/actions.ts:8 | Replacing the catererId, by "" or by an id that is not in the catalog, never changes the verdict. |
| ReviewIntake.StoredReviewRoundTrip | src/app/actions.ts:34-40 | A valid submission becomes a review, and the stored record keeps its author, rating and comment. Its id is the clock value and its date is the day part of the timestamp. |
| ReviewIntake.AsReview | src/components/review-section.tsx:64 | Casting the server's review to a catalog `Review` keeps id, author, rating, comment and date. |
| ReviewIntake.PrefsSchemaAccepts | src/app/actions.ts:44-48 | Accepts exactly when cuisine, budget and eventType are all strings, with no length or value limit. |
| ReviewIntake.GetAIRecommendation | src/app/actions.ts:50-61 | If any preference field is missing or not a string, the result is null. Otherwise the result is whatever the recommender returned. |
| ReviewSection.ClientSchemaAccepts | src/components/review-section.tsx:32-36 | Accepts exactly when rating >= 1, with no upper bound, the comment has at least 10 UTF-16 code units and the author at least 2. |
| ReviewSection.Prepend | src/components/review-section.tsx:147-149 | The list grows by exactly one. Element 0 is the new review, the tail is the old list in the same order, and the multiset gains exactly the new review. |
| ReviewSection.ApplyReply | src/components/review-section.tsx:62-68 | An accepted reply prepends its review; a refused reply leaves the list unchanged. |
| ReviewSection.ApplyReplyChangesIffAccepted | src/components/review-section.tsx:62-68 | The list changes if and only if the server accepted. |
| ReviewSection.DefaultValuesRejected | src/components/review-section.tsx:32-47 | The default form (rating 0, empty comment and author) fails the client schema, and still fails once a rating is set. |
| ReviewSection.ClientHasNoUpperBound | src/components/review-section.tsx:33 | Rating 6 passes the client schema but is refused by the server with the error message. |
| ReviewSection.ButtonRatingsPassServer | src/components/review-section.tsx:87-91 | A rating set by a star button, with a client-valid form, is always accepted by the server. |
| ReviewSection.ToSubmission | src/components/review-section.tsx:53-57 | The form data sent carries the component's catererId and the form's rating, comment and author unchanged. |
| ReviewSection.Highlighted | src/components/review-section.tsx:95 | Button k is highlighted exactly when k <= the current rating value. |
| ReviewSection.HighlightMatchesStarRow | src/components/review-section.tsx:95 | For a whole-number value, button k is highlighted (k <= value) exactly when star k-1 of a five-star row is filled. At 2.5 they differ: button 3 is not highlighted, although star 2 of the row is filled. |
| ReviewSection.ButtonIconFilledOnceRated | src/components/review-section.tsx:95 | Each button's one-star icon is filled exactly when the value is positive. |
| ReviewSection.ReviewSection.constructor | src/components/review-section.tsx:145 | The list starts as the initial reviews. |
| ReviewSection.ReviewSection.HandleReviewSubmit | src/components/review-section.tsx:147-149 | The new list is the new review prepended to the old one. |
| ReviewSection.ReviewForm.constructor | src/components/review-section.tsx:44-49 | The form starts at the default values, not pending. |
| ReviewSection.ReviewForm.SelectStar | src/components/review-section.tsx:87-91 | A button sets the rating to its star and changes nothing else. |
| ReviewSection.ReviewForm.EditComment | src/components/review-section.tsx:105-117 | Only the comment changes. |
| ReviewSection.ReviewForm.EditAuthor | src/components/review-section.tsx:119-131 | Only the author changes. |
| ReviewSection.ReviewForm.Submit | src/components/review-section.tsx:51-135 | Values the client schema refuses send nothing and change nothing. If the awaited call rejects, the form stays pending, and list and values are unchanged. Otherwise the server's reply is returned and pending ends false. The list changes exactly as `ApplyReply` says, and the form resets to its defaults only on success. With a rating set by the buttons, a client-valid submit that gets a reply always succeeds. No submit starts while pending, because the button is disabled. |
| PromptSerialiser.Join | src/ai/flows/recommend.ts:75-76 | `Array.prototype.join`: no parts give "", one part gives itself, and otherwise the first part, the separator and the join of the rest. |
| PromptSerialiser.JoinSnoc | src/ai/flows/recommend.ts:75-76 | Joining one more part appends the separator and that part. |
| PromptSerialiser.JoinLength | src/ai/flows/recommend.ts:75-76 | The joined length is the sum of the parts plus one separator between each pair of neighbours. |
| PromptSerialiser.JoinEmptyIff | src/ai/flows/recommend.ts:75-76 | With a non-empty separator, a join is empty if and only if there are no parts or a single empty part. |
| PromptSerialiser.ItemNames | src/ai/flows/recommend.ts:75 | The names of the items, one per item, in order. |
| PromptSerialiser.MenuLines | src/ai/flows/recommend.ts:75 | One line per menu, in order, each `category: names joined by ", "`. |
| PromptSerialiser.Comments | src/ai/flows/recommend.ts:76 | The comments of the reviews, one per review, in order. |
| PromptSerialiser.MenuLine | src/ai/flows/recommend.ts:75 | A menu's line is its category, then ": ", then its item names joined by ", ". |
| PromptSerialiser.MenusText | src/ai/flows/recommend.ts:75 | The `menus` text is the menu lines joined by "; ". |
| PromptSerialiser.ReviewsText | src/ai/flows/recommend.ts:76 | The `reviews` text is the review comments joined by "; ". |
| PromptSerialiser.ToInfo | src/ai/flows/recommend.ts:71-76 | One caterer's record copies id, name, description and rating, and holds its `menus` text and its `reviews` text. |
| PromptSerialiser.ToInfos | src/ai/flows/recommend.ts:70-77 | One record per caterer, in order. id, name, description and rating are copied unchanged. `menus` is the menu lines joined by "; ", and `reviews` is the comments joined by "; ". |
| PromptSerialiser.MenusTextEmpty | src/ai/flows/recommend.ts:75-76 | No menus give "", and no reviews give "". |
| PromptSerialiser.MenuWithoutItems | src/ai/flows/recommend.ts:75 | A menu with no items gives `Category: `. |
| PromptSerialiser.MenusTextSnoc | src/ai/flows/recommend.ts:75 | Each further menu adds "; " and its line. |
| PromptSerialiser.ReviewsTextSnoc | src/ai/flows/recommend.ts:76 | Each further review adds "; " and its comment. |
| PromptSerialiser.Outline | src/ai/flows/recommend.ts:75 | The category and item names of each menu, in order. |
| PromptSerialiser.MenusTextIgnoresDetails | src/ai/flows/recommend.ts:75 | Menus with the same categories and item names give the same text, so item descriptions and prices never appear. |
| PromptSerialiser.ToInfoDependsOnlyOnSummary | src/ai/flows/recommend.ts:70-77 | Caterers that agree on id, name, description, rating, menu outline and comments give equal records. Logo, phone, service area, gallery, review authors, review dates and review ratings are dropped. |
| PromptSerialiser.JoinPair | src/ai/flows/recommend.ts:75 | Two parts join as the first, the separator, then the second. |
| PromptSerialiser.FeastCreatorsMenusText | src/ai/flows/recommend.ts:75 | Feast Creators' menus serialise to `BBQ Packages: <items>; Fusion Tacos: <items>` with the fixture's item names. |
| ListingSearch.Matches | src/app/page.tsx:17-19 | A caterer matches exactly when its lower-cased name or its lower-cased service area contains the lower-cased term. |
| ListingSearch.FilterCaterers | src/app/page.tsx:16-20 | The result is a subsequence of the catalog in its original order. A caterer is in it if and only if it is in the catalog and its lower-cased name or service area contains the lower-cased term. Each matching caterer keeps its multiplicity, and every other caterer has none. |
| ListingSearch.EmptyTermKeepsAll | src/app/page.tsx:18-19 | An empty term keeps every caterer. |
| ListingSearch.FilterIgnoresCase | src/app/page.tsx:18-19 | Terms that lower-case alike select exactly the same caterers. |
| ListingSearch.LowerCaseTermSelectsTheSame | src/app/page.tsx:18-19 | Lower-casing the term first changes nothing. |
| ListingSearch.FilterIdempotent | src/app/page.tsx:16-20 | Filtering the result again with the same term returns it unchanged. |
| ListingSearch.Listing | src/app/page.tsx:49-58 | The "No caterers found matching your criteria." branch is taken exactly when no caterer matches. Otherwise the cards are the filter's non-empty result. |
| Recommender.FormSchemaAccepts | src/components/ai-recommender.tsx:39-43 | Accepts exactly when the cuisine has at least 2 UTF-16 code units, the budget is economy, standard or premium, and the event type has at least 3. |
| Recommender.DefaultPrefsRejected | src/components/ai-recommender.tsx:39-58 | The defaults fail the schema, only because cuisine and event type are empty. |
| Recommender.FormSchemaBoundaries | src/components/ai-recommender.tsx:39-43 | Cuisine needs 2 characters and event type 3. The budget must be exactly economy, standard or premium; "Premium" fails. |
| Recommender.Begin | src/components/ai-recommender.tsx:61-63 | Starting a submit sets loading, clears result and error, and keeps `open`. |
| Recommender.Finish | src/components/ai-recommender.tsx:64-75 | A settled call always ends with loading false and `open` kept. |
| Recommender.OnSubmit | src/components/ai-recommender.tsx:60-76 | A whole submit is `Begin` followed by `Finish` with the settled reply. |
| Recommender.SubmitOutcome | src/components/ai-recommender.tsx:60-76 | A truthy recommendation becomes the result, with no error. A null or empty one gives "Could not find a suitable recommendation. Please try different criteria." A thrown call gives "An error occurred while getting recommendations. Please try again." Exactly one of result and error is set afterwards, and loading is false. |
| Recommender.SubmitForgetsPrevious | src/components/ai-recommender.tsx:61-63 | The outcome of a submit does not depend on the previous result, error or loading flag. |
| Recommender.OpenChange | src/components/ai-recommender.tsx:78-87 | The dialog's `open` becomes the requested value. |
| Recommender.CloseResets | src/components/ai-recommender.tsx:80-86 | Closing resets loading, result and error. Reopening after a close gives a clean open dialog. |
| Recommender.OpenChangesOnlyOpen | src/components/ai-recommender.tsx:79 | Opening changes nothing but `open`. |
| Recommender.TransitionsKeepConsistent | src/components/ai-recommender.tsx:60-87 | Every transition keeps the invariant. The invariant is that result and error are never both set, neither is set while loading, and a set result is truthy. |
| Recommender.Render | src/components/ai-recommender.tsx:90-185 | A closed dialog shows none of its content. While the dialog is open, the form shows exactly when the result is falsy, and the skeleton exactly while loading. The card branch is taken exactly when the result is truthy and loading is false, and the result is the value handed to the card. The error text shows exactly when the error is truthy and loading is false, and it shows that error. |
| Recommender.RenderAfterSubmit | src/components/ai-recommender.tsx:90-185 | After a submit from the open dialog, the dialog takes either the card branch or the error text, never both and never the skeleton. The form stays only beside the error. After a submit from a closed dialog, nothing shows. |
| Recommender.AIRecommender.constructor | src/components/ai-recommender.tsx:46-58 | The dialog starts closed and idle, with the default values. |
| Recommender.AIRecommender.HandleOpenChange | src/components/ai-recommender.tsx:78-87 | The state becomes `OpenChange` of the old state. Closing also resets the form to its defaults. |
| Recommender.AIRecommender.EditValues | src/components/ai-recommender.tsx:108-155 | Only the form values change. |
| Recommender.AIRecommender.Submit | src/components/ai-recommender.tsx:60-161 | It is callable only while the form shows (falsy result) and the button is enabled (not loading). Values the schema refuses change nothing. Valid values go through `getAIRecommendation` with all three fields, and the state becomes `OnSubmit` of the old state with the reply. |
| ProviderApplication.ProviderSchemaAccepts | src/app/add-provider/page.tsx:21-27 | Accepts exactly when name, phone number, service areas, speciality and description have at least 2, 10, 3, 3 and 20 UTF-16 code units. |
| ProviderApplication.VerdictDependsOnlyOnLengths | src/app/add-provider/page.tsx:21-27 | Two value sets with the same five lengths get the same verdict. |
| ProviderApplication.DefaultValuesRejected | src/app/add-provider/page.tsx:35-41 | The all-empty defaults fail the schema. |
| ProviderApplication.PhoneCheckedByLengthOnly | src/app/add-provider/page.tsx:23 | A phone number of ten ASCII characters passes even with letters in it, and one of nine never does. |
| ProviderApplication.FixturePhonesTooShort | src/lib/data.ts:50-112 | Every phone number in the catalog, `555-0101` for example, is shorter than the form's 10-character minimum. |
| ProviderApplication.AreasNotSplit | src/app/add-provider/page.tsx:24-118 | Service areas and specialities are checked by length only: a single area without commas passes, a comma list passes, and "NY" fails. |
| ProviderApplication.ProviderForm.constructor | src/app/add-provider/page.tsx:33-42 | The form starts with every field ''. |
| ProviderApplication.ProviderForm.Edit | src/app/add-provider/page.tsx:66-143 | Editing the fields sets the form's values and nothing else. |
| ProviderApplication.ProviderForm.Submit | src/app/add-provider/page.tsx:44-52 | The data is handed on exactly when the schema accepts it. An accepted submit resets every field to ''. A refused one changes nothing. |
| StarRating.Stars | src/components/star-rating.tsx:10-24 | Exactly `maxRating` stars are rendered. Star i is filled if and only if i < rating. |
| StarRating.FilledCountIsClampedCeiling | src/components/star-rating.tsx:13-18 | The number of filled stars is the ceiling of the rating, clamped to [0, maxRating]. |
| StarRating.FilledCountAtMostMax | src/components/star-rating.tsx:13-18 | At most `maxRating` stars are filled. |
| StarRating.FullAndEmptyRows | src/components/star-rating.tsx:13-18 | A rating of at least `maxRating` fills every star. A rating of at most 0 fills none. |
| StarRating.FilledCountMonotone | src/components/star-rating.tsx:18 | A higher rating never fills fewer stars. |
| StarRating.FractionalRatingsRoundUp | src/components/star-rating.tsx:10-18 | With the default of 5 stars, 4.8 and 4.5 fill 5 stars and 4.0 fills 4. |
| Strings.LowerChar | src/app/page.tsx:18-19 | A-Z map to a-z, every other character is unchanged, and no result is an upper-case ASCII letter. |
| Strings.Lower | src/app/page.tsx:18-19 | The result has the same length, and each character is lower-cased in place. |
| Strings.LowerIdempotent | src/app/page.tsx:18-19 | Lower-casing twice is lower-casing once. |
| Strings.ContainsIsWindow | src/app/page.tsx:18-19 | `includes` holds exactly when the term occurs as a contiguous slice at some position. |
| Strings.ContainsEmpty | src/app/page.tsx:18-19 | Every string contains the empty string. |
| Strings.Utf16Length | src/app/actions.ts:10-11 | The UTF-16 length lies between the number of characters and twice that, and is 0 only for the empty string. |
| Strings.Utf16LengthInBmp | src/app/actions.ts:10-11 | For text inside the Basic Multilingual Plane, the UTF-16 length is the number of characters. |
| Strings.AstralCharacterCountsTwice | src/app/actions.ts:11 | U+1F600 is one character but two code units. |

## Left out

- The placeholder-image list (`src/lib/placeholder-images`) is not part of this model. `findImage` takes it as a parameter, and the fixture lemmas hold for any artwork.
- `toLowerCase` is modelled on ASCII letters only; Unicode case mapping is left out (`Strings.Lower`).
- zod's `z.coerce.number` parse of the rating string, and the `String(rating)` round trip through the form data, are left out. The rating arrives as an already-parsed `real`. A missing `FormData` field, which makes `safeParse` fail, is not modelled for `submitReview`.
- `console.log` and `console.error`, toasts, the one-second `setTimeout` delay, and all JSX rendering and styling are left out, apart from the branch structure in `ListingSearch.Listing` and `Recommender.Render`.
- Recommender.Render: the card branch only records that it is taken and which value it passes on. `CatererCard` reads `caterer.logo.imageUrl` (`src/components/caterer-card.tsx:26`), but it is handed the caterer id string that the recommendation returns (`src/components/ai-recommender.tsx:178`). On a string, `logo` is undefined, so rendering that branch would throw, and no card would ever be drawn. The model does not capture that throw.
- `Date.now()` and `new Date().toISOString()` become the parameters `nowMillis` and `nowIso` of `ReviewIntake.SubmitReview`.
- The remote model call, its prompt templates and the flow definitions in `src/ai/flows/recommend.ts` (lines 1-69 and 78-93) and `src/ai/ai-catering-recommendations.ts` are left out. The recommender's answer is a parameter.
- The argument mismatch between `getAIRecommendation` and `recommendCaterer` is left out. `src/app/actions.ts:59` passes two arguments, but `src/ai/flows/recommend.ts:88-90` takes one object `{ preferences, caterers }`. So the flow receives the preferences object itself as its input, and its `preferences` and `caterers` are undefined. Read as written, either the flow's input schema (`src/ai/flows/recommend.ts:62-65`) refuses the call or `caterers.map` at line 70 throws. Every call would then reject before any model call, and the dialog would always end on the failure message. `Recommender.Reply` is left free on purpose: it over-approximates the code as written, and it also covers the intended wiring. No catalog lookup of the returned string is modelled.
- `src/components/login-dialog.tsx` (Firebase phone sign-in) is not part of this model.
- ReviewSection.ReviewForm.Submit: treats the awaited `submitReview` as one step, so an edit made while the request is in flight is not modelled. The reply, or the rejection that leaves the form pending, is taken as a parameter.
- Recommender.AIRecommender.Submit: treats the awaited `getAIRecommendation` as atomic. Closing the dialog while a request is in flight, after which the late reply still sets `result` or `error`, is not modelled. `Recommender.Begin` and `Recommender.Finish` are the two halves, and they are proved separately.
- `src/app/caterers/[id]/page.tsx` is page composition and is not modelled. It lists the catalog ids as its static routes and looks the caterer up by the route id with `caterers.find`. It calls `notFound()` when there is no match (lines 29-40), and then renders. On this path the review form's `catererId` is therefore always a catalog id, even though `submitReview` itself never checks it.
- `src/components/caterer-card.tsx` is rendering only.
