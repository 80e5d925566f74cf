# MyMatchAI recommendation core, modelled in Dafny

MyMatchAI is a demonstration web client. A user signs in with one of two
seeded profiles. They see a dashboard of recommendations, each scored for
them, and they can edit their profile. This project models the logic behind
those steps:

- **Recommendations** (`recommendations.dfy`): the fixed pool of 15
  candidates and `getPersonalizedRecommendations`. Each candidate's score
  starts at its base relevance and gains additive bonuses: interest id
  mentioned, interest category, engagement / 10, sentiment × 2, age tier,
  occupation, location and purchase history. The score is capped at 100
  (upper cap only). The list is then stably sorted by descending score and
  cut with `slice(0, limit)`.
  - The per-item scorer is imperative: an accumulator and a loop over the
    purchases. Its method is proved equal to a reference definition that
    writes the score as a sum of independent bonuses. Each bonus has its
    own contract.
  - The sort is a stable insertion sort. Stability is stated through score
    classes: the subsequence of items that share a score. A uniqueness
    lemma shows that any stable descending sort gives the same result.
- **Users** (`users.ts` → `users.dfy`): the profile records, the two seeded
  users and `getUserByEmail`, a case-insensitive `find`.
- **AuthContext** (`auth_context.dfy`): the session, a class holding
  `user`, `isLoading` and the saved-user slot of local storage. Its
  methods are `login`, `logout`, `updateUserProfile` and the mount effect
  that restores a saved user. The class invariant says that a logged-in
  user is the one in the slot.
- **ProfileForm** (`profile_form.dfy`): the schema constraints, listing
  each failed constraint in schema order, and the interest catalogue. It
  also holds the id → `Interest` conversion and the update the form
  submits.
- `text.dfy` holds `toLowerCase` and `includes`. `wrappers.dfy` holds
  `Option` and `Result`.

Every JavaScript `number` becomes a Dafny `real`, so `engagementScore / 10`
is exact. `limit` is an `int`.

## Model

| member | source | states |
|---|---|---|
| `Text.Lower` | MyMatchAI/src/data/recommendations.ts:229-230 | lower-casing keeps the length; only ASCII letters change |
| `Text.LowerIdempotent` | MyMatchAI/src/data/users.ts:227 | lower-casing twice is lower-casing once |
| `Text.Includes` | MyMatchAI/src/data/recommendations.ts:229-230 | `includes` can only hold when the needle is no longer than the haystack |
| `Text.IncludesIff` | MyMatchAI/src/data/recommendations.ts:229-230 | `includes` holds iff the needle occurs at some offset of the haystack |
| `Users.FindByEmail` | MyMatchAI/src/data/users.ts:227 | a returned user is in the list and its lower-cased email equals the lower-cased query; none is returned iff no user matches |
| `Users.FindByEmailIsFirst` | MyMatchAI/src/data/users.ts:227 | the returned user is the first match in list order |
| `Users.FindByEmailAt` | MyMatchAI/src/data/users.ts:227 | when index k is the first match, `find` returns the user at k |
| `Users.FindByEmailIgnoresCase` | MyMatchAI/src/data/users.ts:227 | queries equal up to letter case give the same result |
| `Users.GetUserByEmailOfLowered` | MyMatchAI/src/data/users.ts:226-228 | looking up the lower-cased query is looking up the query |
| `Users.SeedScoresInRange` | MyMatchAI/src/data/users.ts:125-223 | both seeded users have engagement in 1–100 and sentiment in 1–10 |
| `Users.SeedEmailsDistinct` | MyMatchAI/src/data/users.ts:130-180 | the seeded emails differ even after lower-casing |
| `Users.GetUserByEmailFindsSeed` | MyMatchAI/src/data/users.ts:125-228 | looking up a seeded user's email returns exactly that user |
| `Recommendations.InterestIds` | MyMatchAI/src/data/recommendations.ts:220 | the id list has one entry per interest, position by position |
| `Recommendations.InterestCategories` | MyMatchAI/src/data/recommendations.ts:221 | the category list has one entry per interest, position by position |
| `Recommendations.MatchesDirectInterestIff` | MyMatchAI/src/data/recommendations.ts:228-231 | `some` holds iff some interest id, lower-cased, occurs in the lower-cased title or description |
| `Recommendations.DirectInterestBonus` | MyMatchAI/src/data/recommendations.ts:228-235 | the bonus is 0 or 20, so it is applied at most once; it is 20 iff some interest id is mentioned |
| `Recommendations.CategoryBonus` | MyMatchAI/src/data/recommendations.ts:238-240 | the bonus is 0 or 15; it is 15 iff the candidate's category is among the user's interest categories |
| `Recommendations.ProfileBonus` | MyMatchAI/src/data/recommendations.ts:243-246 | the engagement and sentiment terms are non-negative for non-negative scores, and lie in 2.1–30 over the documented ranges |
| `Recommendations.AgeBonus` | MyMatchAI/src/data/recommendations.ts:249-255 | the bonus is 0 or 10 (the tiers never both fire); it is 10 iff under 25 on a product or over 30 on a financial item; ages 25–30 get nothing |
| `Recommendations.OccupationBonus` | MyMatchAI/src/data/recommendations.ts:258-264 | the bonus is 0, 8 or 16; it is 0 iff neither an engineer on a technology item nor a manager on a service; it is 16 iff both hold |
| `Recommendations.LocationBonus` | MyMatchAI/src/data/recommendations.ts:267-273 | the bonus is 0, 5 or 10; it is 0 iff neither a New York location with "Metropolitan" in the title nor a San Francisco location on a health item; it is 10 iff both hold |
| `Recommendations.HighValuePurchases` | MyMatchAI/src/data/recommendations.ts:278-280 | the filter keeps exactly the purchases priced above 100 |
| `Recommendations.HighValueBonus` | MyMatchAI/src/data/recommendations.ts:282-284 | the bonus is 0 or 15, so it is added once; it is 15 iff the item is financial and some purchase cost more than 100 |
| `Recommendations.CategoryMatchCount` | MyMatchAI/src/data/recommendations.ts:287-294 | the count never exceeds the number of purchases |
| `Recommendations.CategoryMatchCountIsNumberOfMatches` | MyMatchAI/src/data/recommendations.ts:287-294 | the count equals the number of positions whose purchase category matches, so +10 accrues once per matching purchase |
| `Recommendations.FrequentShopperBonus` | MyMatchAI/src/data/recommendations.ts:297-299 | the bonus is 0 or 5; it is 5 iff there are at least 3 purchases and the item is a service |
| `Recommendations.PurchaseBonus` | MyMatchAI/src/data/recommendations.ts:276-300 | an empty purchase history adds nothing; the purchase bonus is never negative |
| `Recommendations.RawScore` | MyMatchAI/src/data/recommendations.ts:225-300 | with non-negative engagement and sentiment, the uncapped score is at least the base relevance |
| `Recommendations.Cap` | MyMatchAI/src/data/recommendations.ts:304 | the capped score is at most 100 and at most the raw score, and is one of the two |
| `Recommendations.Scored` | MyMatchAI/src/data/recommendations.ts:302-305 | the scored item differs from the candidate only in `relevanceScore`, which is ≤ 100 and, with non-negative engagement and sentiment, ≥ the base or exactly 100 |
| `Recommendations.NoMatchScore` | MyMatchAI/src/data/recommendations.ts:225-305 | with no interest, category, age, occupation, location or purchase match, the score is the capped base + engagement/10 + sentiment×2 |
| `Recommendations.HomeBuyerScoreCappedForIsha` | MyMatchAI/src/data/recommendations.ts:26-36 | the seeded user Isha scores the home-buyer programme at exactly 100 (raw ≥ 133.8) |
| `Recommendations.PurchaseAdjustments` | MyMatchAI/src/data/recommendations.ts:276-300 | the imperative purchase block (high-value check, loop adding 10 per matching purchase, frequent-shopper check) returns exactly the reference purchase bonus |
| `Recommendations.ScoreRecommendation` | MyMatchAI/src/data/recommendations.ts:224-306 | the imperative scorer (accumulator and purchase loop) returns exactly the reference score |
| `Recommendations.ScoreAll` | MyMatchAI/src/data/recommendations.ts:224-306 | mapping the scorer over a pool keeps its length, each position holding that pool item, scored |
| `Recommendations.ScoreAllCapped` | MyMatchAI/src/data/recommendations.ts:302-305 | no scored candidate exceeds 100 |
| `Recommendations.Insert` | MyMatchAI/src/data/recommendations.ts:310 | insertion adds exactly one item: the multiset grows by it |
| `Recommendations.InsertSorted` | MyMatchAI/src/data/recommendations.ts:310 | insertion keeps a descending sequence descending |
| `Recommendations.InsertScoreClass` | MyMatchAI/src/data/recommendations.ts:310 | an inserted item goes in front of every item with its score |
| `Recommendations.SortByScore` | MyMatchAI/src/data/recommendations.ts:310 | the sort returns a permutation of its input (same multiset, same length) |
| `Recommendations.SortByScoreSorted` | MyMatchAI/src/data/recommendations.ts:310 | the sort's result is in non-increasing score order |
| `Recommendations.SortByScoreStable` | MyMatchAI/src/data/recommendations.ts:310 | items with equal scores keep their input order |
| `Recommendations.ScoreClassOfFirst` | MyMatchAI/src/data/recommendations.ts:310 | a non-empty sequence has a non-empty score class at its first item's score |
| `Recommendations.ScoreClassMembers` | MyMatchAI/src/data/recommendations.ts:310 | a score class holds only items of the sequence with that score |
| `Recommendations.ScoreClassTail` | MyMatchAI/src/data/recommendations.ts:310 | dropping the first item removes it from its own score class and from no other |
| `Recommendations.TopScoreBound` | MyMatchAI/src/data/recommendations.ts:310 | in a descending sequence, every non-empty score class lies at or below the first item's score |
| `Recommendations.SameFirst` | MyMatchAI/src/data/recommendations.ts:310 | two descending sequences that agree on the score classes of their first items start with the same item |
| `Recommendations.SortedTail` | MyMatchAI/src/data/recommendations.ts:310 | the tail of a descending sequence is descending |
| `Recommendations.StableSortUnique` | MyMatchAI/src/data/recommendations.ts:310 | two descending sequences with equal score classes are equal, so every stable descending sort agrees with this one |
| `Recommendations.SliceTo` | MyMatchAI/src/data/recommendations.ts:311 | `slice(0, end)` returns a prefix of length min(end, n), or max(n + end, 0) for a negative end, whose items are all items of the input |
| `Recommendations.ScoreClassOfPrefix` | MyMatchAI/src/data/recommendations.ts:311 | cutting a sequence short cuts each score class to a prefix of itself |
| `Recommendations.SortedPrefixKeepsBound` | MyMatchAI/src/data/recommendations.ts:309-311 | sorting and slicing never bring in a score above a bound every input item respects |
| `Recommendations.Rank` | MyMatchAI/src/data/recommendations.ts:224-311 | scoring, sorting and slicing a pool gives min(limit, n) items for limit ≥ 0 (max(n + limit, 0) below 0), in non-increasing score order, none above 100 |
| `Recommendations.GetPersonalizedRecommendations` | MyMatchAI/src/data/recommendations.ts:216-312 | an absent user gets the empty list; otherwise the length is min(limit, 15) for limit ≥ 0 (max(15 + limit, 0) below 0); the result is non-increasing in score and every returned score is at most 100 |
| `Recommendations.GetDefaultRecommendations` | MyMatchAI/src/data/recommendations.ts:216 | with the default limit of 6, a present user gets exactly 6 recommendations |
| `Recommendations.RankedComesFromPool` | MyMatchAI/src/data/recommendations.ts:224-311 | for any pool, the result is a prefix of the sorted scored pool; as a multiset it is contained in the scored pool, so no pool item appears more often than in the pool; each item is a pool item with only its score replaced |
| `Recommendations.RankedIsStable` | MyMatchAI/src/data/recommendations.ts:309-311 | for any pool, each equal-score group of the result is a prefix of that group in pool order |
| `Recommendations.RankedScoreLowerBound` | MyMatchAI/src/data/recommendations.ts:225-305 | with non-negative engagement and sentiment, every returned score is ≥ min(100, its pool item's base score) |
| `AuthContext.MergeNoChanges` | MyMatchAI/src/context/AuthContext.tsx:79 | merging an empty update leaves the user unchanged |
| `AuthContext.MergeIdempotent` | MyMatchAI/src/context/AuthContext.tsx:79 | merging the same update twice equals merging it once |
| `AuthContext.MergeEverything` | MyMatchAI/src/context/AuthContext.tsx:79 | an update carrying every field replaces the whole profile |
| `AuthContext.AuthSession.constructor` | MyMatchAI/src/context/AuthContext.tsx:17-18 | the session starts with no user and loading, with storage as found |
| `AuthContext.AuthSession.RestoreSavedUser` | MyMatchAI/src/context/AuthContext.tsx:20-32 | a saved user becomes the current user; an unparsable entry is removed; loading ends either way |
| `AuthContext.AuthSession.Login` | MyMatchAI/src/context/AuthContext.tsx:34-66 | an email that matches no user fails with "User not found" and changes neither user nor slot. A match, whatever the password, sets the user and the slot to the first case-insensitive match. `isLoading` is false afterwards on both paths |
| `AuthContext.AuthSession.Logout` | MyMatchAI/src/context/AuthContext.tsx:68-75 | the user becomes none and the slot is cleared; loading is untouched |
| `AuthContext.AuthSession.UpdateUserProfile` | MyMatchAI/src/context/AuthContext.tsx:77-87 | nothing changes when nobody is logged in; otherwise the user becomes the shallow merge and the slot holds it |
| `ProfileForm.ParseActivity` | MyMatchAI/src/components/ProfileForm.tsx:56 | the activity is accepted iff it is "low", "medium" or "high" |
| `ProfileForm.IssuePathsAppend` | MyMatchAI/src/components/ProfileForm.tsx:29-57 | the fields flagged by two issue lists together are the union of each list's fields |
| `ProfileForm.Failures` | MyMatchAI/src/components/ProfileForm.tsx:29-57 | validation reports at most one issue per refinement |
| `ProfileForm.FailuresEmpty` | MyMatchAI/src/components/ProfileForm.tsx:29-57 | no issue is reported iff every refinement holds |
| `ProfileForm.FailuresFlag` | MyMatchAI/src/components/ProfileForm.tsx:29-57 | a field is flagged iff some refinement guarding it fails |
| `ProfileForm.ValidateAcceptsIff` | MyMatchAI/src/components/ProfileForm.tsx:29-57 | validation reports no issue iff the first name has ≥ 2 characters, the last name ≥ 1, the email passes the format test, the bio ≤ 160, the age lies in 18–120 inclusive, occupation and location are non-empty, and the activity is low, medium or high |
| `ProfileForm.ValidateFlagsExactly` | MyMatchAI/src/components/ProfileForm.tsx:30-56 | each field is flagged iff it breaks its own constraint; in particular age is flagged iff outside 18–120 inclusive, first name iff shorter than 2, activity iff not low, medium or high |
| `ProfileForm.CatalogueKeysAreIds` | MyMatchAI/src/components/ProfileForm.tsx:61-137 | every catalogue key equals its entry's id |
| `ProfileForm.CatalogueValues` | MyMatchAI/src/components/ProfileForm.tsx:197 | `Object.values` lists the entries in key insertion order |
| `ProfileForm.FindById` | MyMatchAI/src/components/ProfileForm.tsx:197 | a found entry is in the catalogue and has the requested id; nothing is found iff no entry has that id |
| `ProfileForm.LookUpAll` | MyMatchAI/src/components/ProfileForm.tsx:196-197 | the lookup list has one entry per input id |
| `ProfileForm.Present` | MyMatchAI/src/components/ProfileForm.tsx:198 | filtering out missing lookups never lengthens the list |
| `ProfileForm.ConvertKeepsKnownIds` | MyMatchAI/src/components/ProfileForm.tsx:196-198 | the converted interests' ids are exactly the known input ids, in input order, and every converted interest is a catalogue entry |
| `ProfileForm.ConvertInterests` | MyMatchAI/src/components/ProfileForm.tsx:196-198 | the conversion keeps input order, drops unknown ids, and yields only catalogue entries with the requested ids |
| `ProfileForm.SubmissionPatch` | MyMatchAI/src/components/ProfileForm.tsx:201-204 | the submitted update carries catalogue interests and never the id, avatar, purchases, engagement or sentiment |
| `ProfileForm.SubmissionKeepsScoringInputs` | MyMatchAI/src/components/ProfileForm.tsx:196-204 | saving the form keeps the purchase history, engagement, sentiment and id, takes the form's age, and leaves only catalogue interests |

## Left out

- Rendering, routing, animation, scroll and observer handlers, toasts, and the artificial network delays: these are presentation and timing, not logic.
- Local storage is modelled as the session field `saved`, not as I/O. `JSON.stringify`/`JSON.parse` are left out: a stored entry either holds a user or cannot be parsed.
- The zod email regular expression is a library black box. It enters validation as the boolean `emailIsValid`.
- Validation messages for the activity enum are written in the library's style; their exact text is the library's.
- `z.coerce.number` is not modelled: the age reaches validation as a number. Non-numeric input is not modelled.
- Text.Lower: lower-cases ASCII letters only. JavaScript's `toLowerCase` also maps other Unicode letters; no seeded string or pool text needs that.
- String lengths count characters, where JavaScript counts UTF-16 code units.
- Fractional `limit` values, which `slice` truncates, are not modelled: `limit` is an integer.
- The `interestsByCategory` grouping in `ProfileForm.tsx` only arranges checkboxes on screen, so it is not modelled.
- The form's `isSubmitting` flag is also left out.
- ProfileForm.SubmissionPatch: the form always submits an interests array (its default is `[]`), so the branch where `data.interests` is undefined is not modelled. An absent phone number or gender is modelled as an absent field.
- Floating-point rounding is not modelled: scores and prices are exact reals.
- `parseFloat(price.toString())` is taken to be the identity on the price.

## Notes on the source

- The New York bonus tests the candidate's title, case-sensitively, for "Metropolitan". Only the description of `rec1` mentions metropolitan areas, in lower case. So on this pool the bonus never fires. The model keeps the test as written.
- The direct-interest bonus compares interest ids such as `homeLoan`, not display names, against the text. The model keeps this.
- The age message says "less than 120", but the check accepts 120. The model follows the check: 18 to 120 inclusive.
