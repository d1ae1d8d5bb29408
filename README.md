# AtCoder Team Standings Colorizer, modelled in Dafny

The userscript colours the team standings page of AtCoder. Each member link is
rewritten into a span classed by the member's rating. The members' ratings are
aggregated into one team rating by a 20-round bisection. A Topcoder-like circle
badge is drawn beside the team name, with a tooltip that shows the team rating.
The script then schedules its next pass.

The project has three modules:

- `Tiers` (`tiers.dfy`) models the rating bands: `getColorCode`,
  `getSpanClass`, JavaScript's `rating % 400` and `generateTopcoderLikeCircle`.
  Both threshold chains are proved to follow one arithmetic classification,
  `BandOf`.
- `Aggregate` (`aggregate.dfy`) models `aggregateRatings` as a method with its
  two nested loops. It is proved against the spec function
  `Search`/`AggregateRating`, and the bisection's properties are proved about
  that function. `getWinProbability` is a parameter `p`. Some lemmas need the
  usual shape of a win probability (in (0, 1), rising with one's own rating,
  falling with the opponent's); they state it as the hypothesis `WinModel(p)`.
- `Standings` (`standings.dfy`) models one pass of `heuristic`:
  - an array of row records is updated in place and the next scheduled action
    is returned;
  - it includes `String.prototype.trim`, the member loop, `decorate`, the row
    guards and the team-link checks;
  - the `span.tooltip1` guard is structural: a row has a tooltip exactly when
    its team link holds the `Badge` that `Decorate` builds.

Ratings are real numbers. Every endpoint of the bisection bracket is a
multiple of 10000 / 2^20 in [0, 10000], so doubles hold them exactly, and the
model's bracket arithmetic is exact.

Two behaviours of the code worth knowing:

- `heuristic` called with no table schedules `main` after 2000 ms
  (lines 107-108). The only 3000 ms retry of `main` is in its error handler
  (line 164). Line 114 waits 3000 ms and scans again, with the same table,
  when the page has no rows yet.
- `aggregateRatings([])` is reached whenever every member name of an eligible
  row is blank, and it gives 0 (`Aggregate.EmptyTeam`,
  `Standings.BlankTeamScoresZero`).

## Model

| member | source | states |
|---|---|---|
| Tiers.BandOf | AtCoder-Team-Standings-Colorizer.user.js:66-76 | the arithmetic reference classification (quotient by 400, red from 2800) that both threshold chains are proved to follow (`ChainsFollowBand` ties both to it); its own contract states that a rating is unrated exactly when it is 0 or less |
| Tiers.ChainsFollowBand | AtCoder-Team-Standings-Colorizer.user.js:51-76 | getColorCode and getSpanClass give, for every rating, the colour code and class of its arithmetic band |
| Tiers.BandColorInjective | AtCoder-Team-Standings-Colorizer.user.js:52-60 | the nine colour codes are pairwise distinct |
| Tiers.BandClassInjective | AtCoder-Team-Standings-Colorizer.user.js:67-75 | the nine class names are pairwise distinct |
| Tiers.ColorAndClassAgree | AtCoder-Team-Standings-Colorizer.user.js:51-76 | two ratings get the same colour code iff they get the same class iff they lie in the same band |
| Tiers.BandMonotone | AtCoder-Team-Standings-Colorizer.user.js:66-76 | the band index never decreases as the rating rises |
| Tiers.UnratedAtOrBelowZero | AtCoder-Team-Standings-Colorizer.user.js:51-76 | a rating is classed `user-unrated` and coloured `#000000` iff it is at most 0 |
| Tiers.Boundaries | AtCoder-Team-Standings-Colorizer.user.js:51-76 | 0 is unrated and black; 399 and 400, and 2799 and 2800, get different codes and classes |
| Tiers.Trunc | AtCoder-Team-Standings-Colorizer.user.js:89-89 | truncation toward zero: the integer at most x for x ≥ 0, at least x below 0, and less than 1 away |
| Tiers.Rem400 | AtCoder-Team-Standings-Colorizer.user.js:89-89 | `rating % 400`: the result has the dividend's sign and lies in (-400, 400), and the dividend minus the result is a whole multiple of 400 |
| Tiers.TopcoderLikeCircle | AtCoder-Team-Standings-Colorizer.user.js:81-91 | gold legend iff rating ≥ 3600, silver iff 3200 ≤ rating < 3600, a filled circle iff rating < 3200; when filled, the colour is the band's and the fill is `(rating % 400) / 4`, so the `100` arm is never taken |
| Tiers.FillIsProgressInStep | AtCoder-Team-Standings-Colorizer.user.js:89-89 | in the step [400k, 400(k+1)) below 3200 the fill is (rating - 400k) / 4, in [0, 100) |
| Tiers.FillRange | AtCoder-Team-Standings-Colorizer.user.js:89-90 | every rating in [0, 3200) gets a filled circle with a fill in [0, 100), and the fill is 0 at each multiple of 400 |
| Aggregate.Width | AtCoder-Team-Standings-Colorizer.user.js:33-44 | the bracket width after n halvings is positive and at most 10000 |
| Aggregate.WidthIsPower | AtCoder-Team-Standings-Colorizer.user.js:33-44 | the bracket width after n rounds times 2^n is 10000 |
| Aggregate.Step | AtCoder-Team-Standings-Colorizer.user.js:34-43 | a round halves the bracket's width and keeps it inside the old one; one end stays put, a lower end that moved passes the test (joint chance below 1/2) and an upper end that moved fails it |
| Aggregate.RoundHalfUp | AtCoder-Team-Standings-Colorizer.user.js:45-45 | `Math.floor(x + 0.5)` is the integer in (x - 1/2, x + 1/2] |
| Aggregate.Search | AtCoder-Team-Standings-Colorizer.user.js:31-44 | the bracket after n rounds: 0 ≤ left ≤ right ≤ 10000 and right - left is the width after n halvings |
| Aggregate.AggregateRating | AtCoder-Team-Standings-Colorizer.user.js:30-46 | the team rating is an integer in [0, 10000] |
| Aggregate.AggregateRatings | AtCoder-Team-Standings-Colorizer.user.js:30-46 | the nested loops compute the rounded midpoint of the bracket after 20 rounds of the bisection, in [0, 10000] |
| Aggregate.SearchNested | AtCoder-Team-Standings-Colorizer.user.js:39-43 | across rounds `left` never decreases and `right` never increases |
| Aggregate.SearchSeparates | AtCoder-Team-Standings-Colorizer.user.js:39-43 | the lower end is 0 or a rating where the joint chance is below 1/2; the upper end is 10000 or a rating where it is not |
| Aggregate.SearchKeepsCrossing | AtCoder-Team-Standings-Colorizer.user.js:33-43 | if the test holds below a point c in [0, 10000] and fails above it, c stays in the bracket at every round |
| Aggregate.WidthSteps | AtCoder-Team-Standings-Colorizer.user.js:33-33 | after the 20 rounds the width is 10000 / 2^20 |
| Aggregate.FinalBracketWidth | AtCoder-Team-Standings-Colorizer.user.js:33-44 | the final bracket is exactly 10000 / 2^20 wide |
| Aggregate.AggregateNearCrossing | AtCoder-Team-Standings-Colorizer.user.js:30-46 | with such a crossing point c, the team rating lies within 1/2 + 10000 / 2^21 of c |
| Aggregate.EmptyTeamSearch | AtCoder-Team-Standings-Colorizer.user.js:35-44 | with no members the product stays 1, the test never holds and the lower end stays 0 |
| Aggregate.EmptyTeam | AtCoder-Team-Standings-Colorizer.user.js:35-45 | with no members the team rating is 0 |
| Aggregate.ProductBounds | AtCoder-Team-Standings-Colorizer.user.js:35-38 | under the win model the joint chance lies in (0, 1] |
| Aggregate.ProductGrowsWithOpponent | AtCoder-Team-Standings-Colorizer.user.js:35-38 | under the win model the joint chance never drops as the opponent's rating rises |
| Aggregate.BelowDownwardClosed | AtCoder-Team-Standings-Colorizer.user.js:37-39 | under the win model, if the test holds at y it holds at every x ≤ y, so it flips at most once |
| Aggregate.FinalBracketSplits | AtCoder-Team-Standings-Colorizer.user.js:33-44 | under the win model, every rating up to a moved lower end passes the test and every rating from a moved upper end fails it |
| Aggregate.SearchOrdered | AtCoder-Team-Standings-Colorizer.user.js:33-44 | if one team's test implies the other's, their brackets coincide or the first lies wholly below the second |
| Aggregate.AggregateOrdered | AtCoder-Team-Standings-Colorizer.user.js:30-46 | if one team's test implies the other's, its team rating is no larger |
| Aggregate.ProductShrinksWithMembers | AtCoder-Team-Standings-Colorizer.user.js:35-38 | under the win model, raising members' ratings never raises the opponent's joint chance |
| Aggregate.AggregateMonotoneInMembers | AtCoder-Team-Standings-Colorizer.user.js:30-46 | under the win model the team rating never drops when members' ratings rise |
| Aggregate.AggregateGrowsWithMember | AtCoder-Team-Standings-Colorizer.user.js:30-46 | under the win model the team rating never drops when a member joins |
| Standings.LeadingSpace | AtCoder-Team-Standings-Colorizer.user.js:128-128 | the leading run of white space fits in the string |
| Standings.TrailingSpace | AtCoder-Team-Standings-Colorizer.user.js:128-128 | the trailing run of white space fits in the string |
| Standings.LeadingSpaceIsMaximal | AtCoder-Team-Standings-Colorizer.user.js:128-128 | the leading run is all white space and is followed by a character that is not |
| Standings.TrailingSpaceIsMaximal | AtCoder-Team-Standings-Colorizer.user.js:128-128 | the trailing run is all white space and is preceded by a character that is not |
| Standings.TrimCutsOnlySpace | AtCoder-Team-Standings-Colorizer.user.js:128-128 | `trim` keeps a slice of the name and drops only white space on either side; a non-empty result neither starts nor ends with white space |
| Standings.TrimBlank | AtCoder-Team-Standings-Colorizer.user.js:128-129 | a name trims to empty iff it is white space only |
| Standings.TrimKeepsPlain | AtCoder-Team-Standings-Colorizer.user.js:128-128 | a name that neither starts nor ends with white space trims to itself |
| Standings.TrimIdempotent | AtCoder-Team-Standings-Colorizer.user.js:128-128 | trimming twice is trimming once |
| Standings.RecolorAllClassifies | AtCoder-Team-Standings-Colorizer.user.js:127-136 | after the member loop a blank link is as it was, a name in the table is trimmed and classed by the band of its rating, and any other name is trimmed and classed `user-unrated` |
| Standings.RecolorIdempotent | AtCoder-Team-Standings-Colorizer.user.js:128-135 | rewriting an already rewritten link changes nothing |
| Standings.UnknownMemberIsUnrated | AtCoder-Team-Standings-Colorizer.user.js:131-135 | a name missing from the table pushes 0 and is wrapped in `user-unrated` |
| Standings.KnownMemberIsRated | AtCoder-Team-Standings-Colorizer.user.js:131-135 | a name in the table pushes its rating and is wrapped in that rating's class |
| Standings.BlankMemberIsSkipped | AtCoder-Team-Standings-Colorizer.user.js:128-129 | an empty or white-space-only name is left as it is and pushes nothing |
| Standings.MemberRatingsLength | AtCoder-Team-Standings-Colorizer.user.js:126-136 | at most one rating is pushed per link |
| Standings.BlankMembersPushNothing | AtCoder-Team-Standings-Colorizer.user.js:126-136 | links whose names are all blank push no rating |
| Standings.Decorate | AtCoder-Team-Standings-Colorizer.user.js:97-101 | decorate builds a tooltip badge carrying the team rating and the TopcoderLikeCircle of that rating, in the band's colour, and puts the team name in the band's class |
| Standings.RewriteMember | AtCoder-Team-Standings-Colorizer.user.js:128-135 | one turn of the member loop gives the rewritten link and pushes the rating it looked up (nothing for a blank name) |
| Standings.ColorMembers | AtCoder-Team-Standings-Colorizer.user.js:125-136 | the member loop gives every link rewritten and the ratings pushed in link order |
| Standings.ScanCell | AtCoder-Team-Standings-Colorizer.user.js:119-147 | the body of the row loop does to the row what `ScanRow` says |
| Standings.ScanSkipsIneligible | AtCoder-Team-Standings-Colorizer.user.js:119-123 | a row without the team marker, with a tooltip, or with no member links is left unchanged |
| Standings.ScanChangesRow | AtCoder-Team-Standings-Colorizer.user.js:118-148 | a pass changes a row iff it passes the guards and either gets its badge or has a link the rewrite changes |
| Standings.ScanDecorates | AtCoder-Team-Standings-Colorizer.user.js:140-147 | a row with a team link and name span gets the badge with its members' team rating, and then fails the tooltip guard |
| Standings.ScanRevisitsUndecoratable | AtCoder-Team-Standings-Colorizer.user.js:127-144 | a row without `a.username > span` gets its members recoloured but no badge, and still passes the guards |
| Standings.BlankTeamScoresZero | AtCoder-Team-Standings-Colorizer.user.js:126-147 | a row whose member names are all blank is decorated with team rating 0 |
| Standings.RecolorAllIdempotent | AtCoder-Team-Standings-Colorizer.user.js:127-136 | rewriting the member links twice is rewriting them once |
| Standings.ScanRowIdempotent | AtCoder-Team-Standings-Colorizer.user.js:118-148 | a second pass over a row changes nothing |
| Standings.ScanAllEffect | AtCoder-Team-Standings-Colorizer.user.js:118-148 | in a pass every row failing a guard is kept; every other row gets its links rewritten, and then either the badge, after which it fails the tooltip guard, or no badge (missing team link or span), in which case it still passes the guards |
| Standings.ScanAllIdempotent | AtCoder-Team-Standings-Colorizer.user.js:118-148 | a second pass over the whole table changes nothing |
| Standings.ScanRows | AtCoder-Team-Standings-Colorizer.user.js:118-148 | the row loop leaves the array holding the scan of every row |
| Standings.Heuristic | AtCoder-Team-Standings-Colorizer.user.js:106-151 | with no table, schedule main after 2000 ms and touch nothing; with no rows, rescan after 3000 ms; otherwise scan every row in place and rescan after 2000 ms, with the same table |
| Standings.TwoMembersColored | AtCoder-Team-Standings-Colorizer.user.js:125-136 | alice (1500) and bob (900) become cyan and green, and push 1500 and then 900 |
| Standings.TwoMemberScenario | AtCoder-Team-Standings-Colorizer.user.js:118-148 | that team's row gets its two links recoloured and a single badge with the team rating of [1500, 900] |

## Left out

- `getWinProbability` (line 24) is the parameter `p`. Its formula `1 / (1 + 6 ** ((rb - ra) / 400))` involves floating-point exponentiation that is not modelled. No numeric value of a team rating is claimed. That includes the value for a single-member team.
- Aggregate.Product: it multiplies exact reals, not doubles. The rounding and the underflow of the script's product are not modelled.
- `main` (lines 153-167): the network fetch, JSON parsing, the 3-second retry in its error handler, and the undefined global `isHeuristic` on line 154. These are I/O and an unseen global. `Heuristic` takes the table as an `Option`.
- `GM_addStyle` and `GM_getResourceText` (line 17) and `console.log`: style injection and logging.
- `setTimeout`: `Heuristic` returns the scheduled call and its delay as an `Action`. Timing and the chain of later passes are not modelled.
- DOM querying and `innerHTML`: rows are records.
  - Markup text is not parsed, so a name containing HTML is not modelled.
  - A `span.tooltip1` that `decorate` did not produce is not modelled.
  - The circle's inline CSS is reduced to the marker it draws.
- Standings.RatingOf: `username in ratings` is map membership. JavaScript's `in` also finds inherited properties, such as a user named `constructor`, and that is not modelled.
- A `textContent` of `null` is not modelled. Member texts are strings, and the `?? ""` fallback (line 128) is never needed.
- Non-numeric ratings and NaN are not modelled. Ratings are real numbers.
- Standings.ScanRowIdempotent: "changes nothing" means the row records are equal. On every pass, the script writes the same `member.innerHTML` again (line 135) for a row with no `a.username > span`. Repeated identical DOM writes are not modelled.
