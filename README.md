# TraceQ core, modelled in Dafny

TraceQ helps families, the public and the police find missing persons. This
project models the parts of it that decide things:

- **Identity verification in the Python back end.**
  - The Verhoeff checksum and the Aadhaar number rules.
  - How the detected card regions fill in the Aadhaar record.
  - First-face selection and the face-comparison fallback.
  - The order of the checks in the `/validate-aadhaar` endpoint.
- **The face-comparison analysis.**
  - Region scores from the 68 facial landmarks, and the fixed fallback scores.
  - The match percentage, conclusion, confidence and top/bottom-three regions.
  - The Grad-CAM heat-map normalisation.
- **The web pages' state logic.**
  - The five-step "search for someone" report wizard and its location suggestions.
  - The sign-in / police sign-up form.
  - The "magic link sent" screen.
  - The Cloudinary public-id extraction.
  - The missing-persons list with its filters.
  - The police dashboard (filters, notification counters, "seen" marks, photo carousel).
  - The reporter's "my reports" page.
- **Three API routes.**
  - The police "update report status" `PUT`.
  - The nearest-police `GET`.
  - The nearby-missing-persons `GET`.

Each source file is one module:

| module | file | models |
|---|---|---|
| `Verhoeff` | `verhoeff.dfy` | checksum and Aadhaar rules |
| `AadhaarVerification` | `aadhaar_verification.dfy` | record extraction and the endpoint |
| `FaceComparison` | `face_comparison.dfy` | `compare_faces` |
| `StableSort` | `stable_sort.dfy` | the stable `sorted` used by the summary and the nearby route |
| `LocationSearch` | `location_search.dfy` | location suggestions |
| `ReportWizard` | `report_form.dfy` | the report wizard |
| `AuthForm` | `auth_form.dfy` | the sign-in / sign-up form |
| `MagicLink` | `magic_link.dfy` | the "magic link sent" screen |
| `CloudinaryId` | `cloudinary.dfy` | public-id extraction |
| `NearbyRoute` | `nearby.dfy` | the nearby route |
| `MissingPersonsPage` | `missing_persons.dfy` | the missing-persons list |
| `ReportLists`, `PoliceDashboard`, `MyReports` | `reports.dfy` | the two report lists |
| `ReportStatusRoute` | `update_report_status.dfy` | the status route |
| `NearestPoliceRoute` | `nearest_police.dfy` | the nearest-police route |

`common.dfy` holds `Option` and the JavaScript/Python string helpers the
pages rely on: ASCII lowering, `includes`, `split`, `join`, `trim`,
`parseInt`, `parseFloat`, and the email regular expression.
It also holds `FieldMessages`, the per-field message map that both forms
write their rule messages into.

How the source is modelled:

- **Pure code.** The checksum, the routes' decisions, filters and
  formatters become functions. Lemmas state their properties.
- **Loops.** The Verhoeff fold, the extraction loop, the region loop, the
  address-priority loop, the merge of suggestions and the nearest-officer
  scan become methods. Each is proved against its specifying function.
- **React state.** Each page's state is a class whose fields are the
  page's `useState` variables. Each handler is a method whose `ensures`
  gives the new state.
- **The status route's database.** It is a class over a set of officer ids and three maps. Its
  `Put` writes in the route's order and is proved equal to the
  specification function `PutSpec`.
- **Code outside the model becomes inputs.** This covers the detector,
  OCR, face cascade, face matcher, landmark predictor, Grad-CAM network,
  databases, network, timers and sockets. They appear as parameters: a
  detection list, a matcher verdict, the rows a query returns, a distance
  function, a "request succeeded" flag.

## Model

| member | source | states |
|---|---|---|
| Verhoeff.ValidateVerhoeff | backend/main.py:73-87 | accepts exactly the strings of 12 ASCII digits whose fold `c := D[c][P[i % 8][digit]]` over the reversed digits ends at 0 |
| Verhoeff.Checksum | backend/main.py:81-85 | the loop over the reversed digits computes the specified accumulator for any tables of the right shape |
| Verhoeff.AccumulateWith | backend/main.py:81-85 | the accumulator stays a digit 0..9 at every step |
| Verhoeff.TableIsDihedral | backend/main.py:47-58 | every entry of `VERHOEFF_TABLE_D` is the product in the dihedral group D5 |
| Verhoeff.TablesAreTables | backend/main.py:47-69 | D is a 10x10 table and P an 8x10 table, all entries digits |
| Verhoeff.LatinSquareD | backend/main.py:47-58 | every row and every column of D is injective (a Latin square) |
| Verhoeff.PermutationTableP | backend/main.py:60-69 | every row of `VERHOEFF_TABLE_P` is a permutation of the ten digits |
| Verhoeff.AccumulateStaysApart | backend/main.py:84-85 | once two accumulators differ, equal later digits keep them apart |
| Verhoeff.SingleDigitChangesAccumulator | backend/main.py:81-87 | for any Latin-square D and permutation P, changing one digit changes the final accumulator |
| Verhoeff.SingleDigitErrorDetected | backend/main.py:73-87 | a number the checksum accepts is rejected once any single digit is changed |
| Verhoeff.Clean | backend/main.py:90 | `re.sub(r'[^0-9]', '', s)` yields only digits and is never longer than the input |
| Verhoeff.CleanAppend | backend/main.py:90 | cleaning distributes over concatenation |
| Verhoeff.ValidateAadhaar | backend/main.py:89-108 | an accepted input cleans to 12 digits, does not start with 0 or 1, and passes the checksum |
| Verhoeff.SeparatorInsensitive | backend/main.py:90 | inserting any non-digit character anywhere never changes the verdict |
| Verhoeff.AadhaarSingleDigitError | backend/main.py:89-108 | an accepted 12-digit number with one digit changed is rejected |
| Verhoeff.ReservedPrefixRejected | backend/main.py:98-100 | a number starting with 0 or 1 is rejected whatever its checksum |
| Verhoeff.ExampleAccepted | backend/main.py:89-108 | the number 234567890124 is accepted, so the checks can be passed |
| AadhaarVerification.LastTokens | backend/main.py:125-144 | finds no tokens iff no region carries the label, else those of the last region that does |
| AadhaarVerification.ExtractAadhaarInfo | backend/main.py:113-146 | each field is the last matching region's OCR tokens joined (by a space for the name), else ""; `is_valid` is `validate_aadhaar` of the number |
| AadhaarVerification.UnknownLabelIgnored | backend/main.py:133-144 | a region with none of the four labels leaves the record unchanged |
| AadhaarVerification.LaterRegionOverwrites | backend/main.py:137-138 | a later NAME region replaces the name and touches no other field |
| AadhaarVerification.NoDetectionsInvalid | backend/main.py:118-120 | with no regions the record stays blank and is not valid |
| AadhaarVerification.FirstFace | backend/main.py:153-158 | a face is selected iff the cascade found one, and it is the first |
| AadhaarVerification.CompareFaceImages | backend/main.py:178-182 | a match iff the matcher returned `verified` true; a raised exception is "no match" |
| AadhaarVerification.ValidateAadhaarApi | backend/main.py:190-211 | 200 and success iff both URLs given, number valid, both faces found and matched; failures are 400 with no data |
| AadhaarVerification.CheckOrder | backend/main.py:195-209 | each failure message is returned exactly when every earlier check passed and this one failed |
| AadhaarVerification.AcceptedCardHasValidNumber | backend/main.py:146-211 | a 200 reply implies the card's number cleans to 12 digits, not starting with 0 or 1, passing the Verhoeff check |
| FaceComparison.RegionsPartitionLandmarks | backend/main.py:297-305 | the seven regions are non-empty, disjoint, within the 68 points, and cover every point |
| FaceComparison.SquaredDistance | backend/main.py:330 | the squared distance of two landmarks is non-negative and zero iff they coincide |
| FaceComparison.Clamp | backend/main.py:334 | `max(0, min(100, x))` lies in the range and is `x` when `x` does |
| FaceComparison.Round2 | backend/main.py:335 | rounding to two decimals gives a whole number of hundredths within half a hundredth of the value |
| FaceComparison.SimilarityIsPercentage | backend/main.py:332-334 | every region score is in [0, 100] |
| FaceComparison.SimilarityMonotone | backend/main.py:332-334 | a smaller mean distance never scores lower |
| FaceComparison.FarRegionScoresZero | backend/main.py:332-334 | a mean distance of 10 pixels or more scores 0 |
| FaceComparison.IdenticalRegionScoresHundred | backend/main.py:330-335 | identical landmarks give every region exactly 100 |
| FaceComparison.Round2Bounds | backend/main.py:335 | rounding keeps a score in [0, 100] |
| FaceComparison.ScoreRegions | backend/main.py:327-335 | one entry per region in table order, each the rounded clamped score of that region's points |
| FaceComparison.RegionMatches | backend/main.py:327-347 | with landmarks, each of the seven regions in table order is scored by `RegionScore` of its own slice of the landmark distances; without them, exactly the fixed fallback map; scores always in [0, 100] |
| FaceComparison.ConclusionAgreesWithConfidence | backend/main.py:374-375 | "Potential match" iff confidence is not Low; High implies above 85; Medium iff in (70, 85] |
| FaceComparison.KeyMatchingFeatures | backend/main.py:376 | the top three are the first three of a stable descending sort: scores no lower than the rest, a permutation, ties in table order |
| FaceComparison.KeyDifferingFeatures | backend/main.py:377 | the bottom three are the first three of a stable ascending sort, likewise |
| FaceComparison.CompareFaces | backend/main.py:274-379 | missing URL gives 400; a report iff URLs given, download succeeded and the matcher answered; its percentage, its region scores (from each region's slice of the landmark distances, or the fallback map), its summary and its normalised heat maps are the specified ones |
| FaceComparison.MaxOf | backend/main.py:266-268 | `np.max` bounds every value and is attained |
| FaceComparison.Rectify | backend/main.py:267 | `np.maximum(h, 0)`: each value kept when positive and 0 otherwise, so non-negative and no smaller than `h` |
| FaceComparison.NormaliseAsWritten | backend/main.py:265-268 | the normalisation as written keeps the map's size |
| FaceComparison.NormaliseAsWrittenKeepsNegatives | backend/main.py:266-268 | a map whose maximum is 0 keeps its negative values |
| FaceComparison.NormaliseAsWrittenDividesByZero | backend/main.py:266-268 | a map with no positive value ends as 0 / 0 |
| FaceComparison.Normalise | backend/main.py:265-268 | the corrected normalisation keeps the map's size |
| FaceComparison.NormaliseInUnitRange | backend/main.py:265-268 | every corrected value lies in [0, 1] |
| FaceComparison.NormaliseReachesOne | backend/main.py:265-268 | with some positive value, the largest becomes exactly 1 |
| FaceComparison.NormaliseAgreesWhenPositive | backend/main.py:265-268 | where the written guard works the two normalisations agree |
| StableSort.SortBy | backend/main.py:376-377 | `sorted` returns a permutation of its input |
| StableSort.SortByOrdered | backend/main.py:376-377 | the result is ordered by the key, ascending or descending |
| StableSort.SortByStable | backend/main.py:376-377 | for every key value, tied elements keep their input order |
| StableSort.TakeSortedSplits | backend/main.py:376-377 | `[:3]` takes a prefix whose elements may precede every later one, and the two parts make up the input |
| LocationSearch.WithoutId | src/app/searchforsomeone/page.tsx:153 | the filter keeps exactly the entries with another id, in order |
| LocationSearch.SaveToRecentSearches | src/app/searchforsomeone/page.tsx:152-156 | the saved place leads, then exactly the first older entries without its id, in their order, cut to five in all |
| LocationSearch.SaveIdempotent | src/app/auth/page.tsx:165-169 | saving the same place twice gives what saving it once gives |
| LocationSearch.SaveKeepsIdsDistinct | src/app/searchforsomeone/page.tsx:152-156 | a list without repeated ids keeps that property after a save |
| LocationSearch.MergeSuggestions | src/app/searchforsomeone/page.tsx:298-315 | the two loops compute the merge specification over Nominatim then Photon results |
| LocationSearch.DedupShape | src/app/searchforsomeone/page.tsx:298-315 | the merge repeats no short name, invents no suggestion, loses no short name |
| LocationSearch.DedupKeepsFirst | src/app/searchforsomeone/page.tsx:302-315 | a suggestion is kept iff it is the first with its short name |
| LocationSearch.DedupAppend | src/app/searchforsomeone/page.tsx:301-315 | the Nominatim results come first, then only Photon results |
| LocationSearch.MergeNames | src/app/searchforsomeone/page.tsx:298-315 | the merged short names are those of both lists |
| LocationSearch.Or | src/app/auth/page.tsx:229-230 | JavaScript's or on strings yields one of its operands, and is empty only when both are |
| LocationSearch.AddEachShape | src/app/searchforsomeone/page.tsx:202-206 | pushing keeps earlier parts, adds exactly the non-blank values, and creates no blank or repeated part |
| LocationSearch.AddFields | src/app/searchforsomeone/page.tsx:202-206 | the loop over the address keys computes the specified pushes |
| LocationSearch.FormatDisplayName | src/app/searchforsomeone/page.tsx:189-219 | without an address the raw display name, else the joined parts |
| LocationSearch.DisplayPartsShape | src/app/searchforsomeone/page.tsx:192-218 | the parts are never blank or repeated, and the item's own name leads when pushed |
| LocationSearch.TrailingPushesRedundant | src/app/searchforsomeone/page.tsx:208-216 | the city and state pushes after the loop never add a part |
| LocationSearch.PhotonParts | src/app/searchforsomeone/page.tsx:248-283 | the pushed parts are the non-blank slots in slot order |
| LocationSearch.ShortIsLongWithoutStreet | src/app/searchforsomeone/page.tsx:257-259 | the short form is the long form with the street removed |
| LocationSearch.LocationParts | src/app/auth/page.tsx:217-218 | splitting the name on commas always yields at least one part |
| LocationSearch.PickedDistrict | src/app/auth/page.tsx:220-229 | never empty; the suggestion's district, else the second-to-last name part, else "Not specified" |
| LocationSearch.PickedState | src/app/auth/page.tsx:222-230 | never empty; the suggestion's state, else the last name part, else "Not specified" |
| ReportWizard.StepErrorsEmptyIff | src/app/searchforsomeone/page.tsx:491-601 | a step writes no message iff every rule of that step holds |
| ReportWizard.ValidatedStaysInStep | src/app/searchforsomeone/page.tsx:491-601 | validating a step leaves the message of every field of other steps as it was |
| ReportWizard.StepValid | src/app/searchforsomeone/page.tsx:491-601 | a step outside 1..5 has no rules; step 4 needs a reporter name and a ten-digit mobile number |
| ReportWizard.Validated | src/app/searchforsomeone/page.tsx:491-601 | validation only adds or overwrites messages, never clears one; a step outside 1..5 changes nothing |
| ReportWizard.BlankIsNotPositive | src/app/searchforsomeone/page.tsx:539-553 | a blank value is never a positive number |
| ReportWizard.DigitsAreNotBlank | src/app/searchforsomeone/page.tsx:577-583 | ten digits are never blank |
| ReportWizard.CheckMissingPerson | src/app/searchforsomeone/page.tsx:496-519 | step 1 passes iff name, an age in (0, 120], gender and photo are given; the messages are those of the failing rules |
| ReportWizard.CheckLastSeen | src/app/searchforsomeone/page.tsx:521-536 | step 2 passes iff place, date and time are given |
| ReportWizard.CheckAppearance | src/app/searchforsomeone/page.tsx:538-564 | step 3 passes iff positive height and weight, hair and eye colour are given |
| ReportWizard.CheckReporter | src/app/searchforsomeone/page.tsx:566-589 | step 4 passes iff name, relationship, a ten-digit mobile and an empty or well-formed email |
| ReportWizard.CheckAadhaar | src/app/searchforsomeone/page.tsx:591-596 | step 5 passes iff an Aadhaar image is attached |
| ReportWizard.SearchWizard.constructor | src/app/searchforsomeone/page.tsx:52-110 | starts at step 1 with an empty form and no messages |
| ReportWizard.SearchWizard.HandleChange | src/app/searchforsomeone/page.tsx:435-465 | stores the value and clears only that field's message |
| ReportWizard.SearchWizard.ValidateStep | src/app/searchforsomeone/page.tsx:491-601 | answers whether the step's rules hold and writes the fired messages over the old ones |
| ReportWizard.SearchWizard.HandleNextStep | src/app/searchforsomeone/page.tsx:603-608 | advances one step, never past 5, exactly when the current step validates |
| ReportWizard.SearchWizard.HandlePrevStep | src/app/searchforsomeone/page.tsx:610-613 | goes back one step, never before 1 |
| AuthForm.ValidEmailNotBlank | src/app/auth/page.tsx:314-321 | a well-formed address never triggers "Email is required" |
| AuthForm.RegularErrorsEmptyIff | src/app/auth/page.tsx:305-333 | the regular form writes no message iff it is valid; at sign-in only the email counts |
| AuthForm.PoliceErrorsEmptyIff | src/app/auth/page.tsx:335-416 | a police step writes no message iff its rules hold |
| AuthForm.LocationNeverBlocksStep2 | src/app/auth/page.tsx:372-407 | district and state never decide step 2; afterwards neither is blank |
| AuthForm.LaterStepsDemands | src/app/auth/page.tsx:409-415 | step 3 needs the ID card front only; step 4 always passes |
| AuthForm.CheckPersonalDetails | src/app/auth/page.tsx:342-370 | step 1 passes iff name, valid email, ten-digit phone and date of birth |
| AuthForm.CheckServiceDetails | src/app/auth/page.tsx:372-391 | step 2 passes iff badge, designation, station and department are given |
| AuthForm.CheckEmail | src/app/auth/page.tsx:314-321 | passes iff the email is well formed; writes "required" or "invalid" otherwise |
| AuthForm.AuthPage.constructor | src/app/auth/page.tsx:89-126 | starts at sign-in, regular user, step 1, blank form, no messages |
| AuthForm.AuthPage.ValidateRegularForm | src/app/auth/page.tsx:305-333 | answers whether the form is valid and writes the fired messages |
| AuthForm.AuthPage.ValidatePoliceStep | src/app/auth/page.tsx:335-424 | answers whether the step's rules hold; step 2 fills blank district and state; the banner is set iff it failed |
| AuthForm.AuthPage.HandleNextStep | src/app/auth/page.tsx:539-548 | advances exactly past a valid step, never beyond 4; the step's messages, the step-2 location defaults and the banner are those `validatePoliceStep` sets |
| AuthForm.AuthPage.HandlePrevStep | src/app/auth/page.tsx:550-552 | goes back one step, never before 1 |
| AuthForm.AuthPage.HandleSuggestionClick | src/app/auth/page.tsx:216-244 | stores the station, position, non-empty district and state, selects it, saves it to recent searches, and clears the three messages |
| AuthForm.AuthPage.ToggleUserType | src/app/auth/page.tsx:577-618 | switches type, back to step 1 with a blank form of that role and no messages |
| MagicLink.MaskLocal | src/components/MagicLinkSent.tsx:78-80 | keeps the first and (when longer than one) last character with at least one `*` between |
| MagicLink.MaskEmail | src/components/MagicLinkSent.tsx:76-82 | the shown address starts with the mask of the text before the first `@`, then an `@` |
| MagicLink.MaskKeepsDomain | src/components/MagicLinkSent.tsx:76-82 | `u@d` shows as the masked `u`, `@`, and `d` unchanged |
| MagicLink.MaskDropsAfterSecondAt | src/components/MagicLinkSent.tsx:77 | text after a second `@` is dropped |
| MagicLink.MaskWithoutAt | src/components/MagicLinkSent.tsx:77-81 | without an `@` the domain reads "undefined" |
| MagicLink.TickKeepsRange | src/components/MagicLinkSent.tsx:52-59 | each tick keeps the countdown within 1..60 and lowers it by one while disabled |
| MagicLink.Tick | src/components/MagicLinkSent.tsx:50-59 | an idle timer is left alone; while disabled each firing lowers the countdown by one, and the firing that re-enables resending resets it to 60 |
| MagicLink.CountdownRuns | src/components/MagicLinkSent.tsx:50-60 | from `c` seconds, `c - 1` ticks count down and the `c`-th re-enables at 60 |
| MagicLink.ResendCoolDown | src/components/MagicLinkSent.tsx:47-73 | after a resend the button is disabled for exactly sixty ticks |
| MagicLink.ResendButton.constructor | src/components/MagicLinkSent.tsx:32-33 | enabled, countdown 60, no link requested |
| MagicLink.ResendButton.HandleResendLink | src/components/MagicLinkSent.tsx:68-73 | requests a link and disables the button only when it was enabled |
| MagicLink.ResendButton.OnTick | src/components/MagicLinkSent.tsx:51-59 | one interval firing; the countdown stays in range |
| CloudinaryId.StemLength | src/components/ClloudinaryImage.tsx:30 | the greedy `[^/.]+` stops exactly at the first `/` or `.` |
| CloudinaryId.StemMatch | src/components/ClloudinaryImage.tsx:30 | a match is a non-empty prefix without `/` or `.`, followed by an optional extension up to the end |
| CloudinaryId.GetPublicId | src/components/ClloudinaryImage.tsx:28-33 | the result is the URL itself or a public id without `/` or `.`; a non-Cloudinary URL is kept |
| CloudinaryId.PublicIdIdempotent | src/components/ClloudinaryImage.tsx:28-33 | applying it twice equals applying it once |
| CloudinaryId.TailMatchComplete | src/components/ClloudinaryImage.tsx:30 | version segment (optional), stem and extension yield the stem |
| CloudinaryId.StemOf | src/components/ClloudinaryImage.tsx:30 | a stem followed by an extension is matched whole |
| CloudinaryId.StemFailsOnSlash | src/components/ClloudinaryImage.tsx:30 | without a version segment a `/` after the marker cannot match |
| CloudinaryId.NestedFolderFails | src/components/ClloudinaryImage.tsx:30-32 | a folder that is not a version segment makes the expression fail |
| CloudinaryId.QueryAfterExtensionFails | src/components/ClloudinaryImage.tsx:30-32 | a query string after the extension makes it fail |
| CloudinaryId.PublicIdOfDeliveryUrl | src/components/ClloudinaryImage.tsx:28-33 | a delivery URL `…/image/upload/[vN/]id[.ext]` yields `id` |
| CloudinaryId.MatchFromIsStem | src/components/ClloudinaryImage.tsx:31-32 | every capture is a valid stem |
| NearbyRoute.WithDistances | src/app/api/missing-persons/nearby/route.ts:58-62 | each row paired with its distance, in row order |
| NearbyRoute.WithinRadiusShape | src/app/api/missing-persons/nearby/route.ts:63 | the filter keeps exactly the rows within the radius, a sub-multiset of the rows |
| NearbyRoute.WhereDefaults | src/app/api/missing-persons/nearby/route.ts:24-35 | with no parameters: every name and ages 0 to 100 |
| NearbyRoute.RadiusDefault | src/app/api/missing-persons/nearby/route.ts:23 | with no radius, 50 km |
| NearbyRoute.WhereClauseShape | src/app/api/missing-persons/nearby/route.ts:30-49 | name and age first; a gender clause iff gender set and not "all"; a period clause iff the range is week, month or year |
| NearbyRoute.WhereClause | src/app/api/missing-persons/nearby/route.ts:30-49 | two to four clauses, starting with the name search and the age range |
| NearbyRoute.Nearby | src/app/api/missing-persons/nearby/route.ts:19-66 | 400 iff latitude or longitude is unreadable, whatever the database holds; otherwise the rows of `NearbyRows` |
| NearbyRoute.NearbyRows | src/app/api/missing-persons/nearby/route.ts:55-66 | the answer is ordered by distance, holds exactly the rows within the radius with multiplicity, ties in database order |
| MissingPersonsPage.FilterParamsKeys | src/app/missing-persons/page.tsx:364-374 | search sent iff non-empty, gender and date range iff not "all", both ages always, nothing else |
| MissingPersonsPage.FilterParams | src/app/missing-persons/page.tsx:364-374 | two to five parameters, none of them a position or a radius |
| MissingPersonsPage.NearbyQueryKeys | src/app/missing-persons/page.tsx:323-328 | the nearby query carries the position, radius "10", and otherwise the filter parameters |
| MissingPersonsPage.RouteReadsFilters | src/app/missing-persons/page.tsx:323-328 | the nearby route builds its filter from exactly the page's search, ages, gender and date range |
| MissingPersonsPage.NearbyRadius | src/app/missing-persons/page.tsx:327 | the nearby query asks for a 10 km radius |
| MissingPersonsPage.AgeChoiceRoundTrip | src/app/missing-persons/page.tsx:874-893 | choosing an option shows it again; a shown option stores the range it came from |
| MissingPersonsPage.WithoutNearbyMembers | src/app/missing-persons/page.tsx:352-354 | "other persons" are exactly those whose id is not among the nearby |
| MissingPersonsPage.WithoutNearbyAppend | src/app/missing-persons/page.tsx:352-354 | the filter keeps the server's order |
| MissingPersonsPage.ListPage.constructor | src/app/missing-persons/page.tsx:232-242 | empty search, initial filters, empty lists |
| MissingPersonsPage.ListPage.HandleFilterChange | src/app/missing-persons/page.tsx:380-386 | replaces the named filter and nothing else |
| MissingPersonsPage.ListPage.SelectAge | src/app/missing-persons/page.tsx:884-893 | stores the option's range, which shows that option again |
| MissingPersonsPage.ListPage.ResetFilters | src/app/missing-persons/page.tsx:971-978 | empty search and initial filters: only both ages are sent |
| MissingPersonsPage.ListPage.ReceiveNearbyPersons | src/app/missing-persons/page.tsx:329-337 | the route's list, or empty on failure |
| MissingPersonsPage.ListPage.ReceiveOtherPersons | src/app/missing-persons/page.tsx:349-358 | exactly the server's persons not nearby, in order, or empty on failure |
| ReportLists.EmptySearchMatches | src/app/police/dashboard/page.tsx:317-319 | an empty search matches every report |
| ReportLists.SearchIgnoresCase | src/app/police/dashboard/page.tsx:317-319 | the search does not depend on the query's case |
| ReportLists.KeepMembers | src/app/my-reports/page.tsx:173-177 | the filter keeps exactly the passing elements |
| ReportLists.KeepAppend | src/app/my-reports/page.tsx:173-177 | the filter keeps the list's order |
| PoliceDashboard.FilteredReportsShape | src/app/police/dashboard/page.tsx:316-324 | the filter distributes over an append, so it keeps the list's order; an empty search with "all" keeps every report |
| PoliceDashboard.FilteredReports | src/app/police/dashboard/page.tsx:316-324 | exactly the reports that match the search and the status filter are kept |
| PoliceDashboard.Bumped | src/app/police/dashboard/page.tsx:160-168 | each report with the notified id gains one sighting (absent count read as 0); others unchanged |
| PoliceDashboard.BumpedTotal | src/app/police/dashboard/page.tsx:163-166 | the total count grows by the number of reports carrying the id |
| PoliceDashboard.MarkedSeen | src/app/police/dashboard/page.tsx:220-222 | reports with that id become seen, others unchanged |
| PoliceDashboard.MarkedSeenIdempotent | src/app/police/dashboard/page.tsx:220-222 | marking twice equals marking once |
| PoliceDashboard.AsWrittenMissesLastPhoto | src/app/police/dashboard/page.tsx:280-284 | with the written guard, no sequence of clicks reaches the last additional photo |
| PoliceDashboard.AsWrittenStuckOnMainPhoto | src/app/police/dashboard/page.tsx:280-284 | with one additional photo the next button is enabled but does nothing |
| PoliceDashboard.RunStaysInRange | src/app/police/dashboard/page.tsx:280-290 | with the corrected guard, the index stays between the main photo and the last additional one |
| PoliceDashboard.EveryPhotoReachable | src/app/police/dashboard/page.tsx:280-284 | with the corrected guard, `k` clicks show photo `index + k`, the last included |
| PoliceDashboard.StatusColorCases | src/app/police/dashboard/page.tsx:326-339 | colour ignores case; only pending, active, found are not gray |
| PoliceDashboard.Dashboard.constructor | src/app/police/dashboard/page.tsx:87-95 | no reports, no selection, photo 0, modal closed |
| PoliceDashboard.Dashboard.OnNotification | src/app/police/dashboard/page.tsx:160-168 | bumps the notified report's count; the total grows accordingly |
| PoliceDashboard.Dashboard.MarkReportAsSeen | src/app/police/dashboard/page.tsx:210-228 | sends the request; only a successful answer marks the report |
| PoliceDashboard.Dashboard.HandleViewFullReport | src/app/police/dashboard/page.tsx:265-274 | opens the report on its main photo; an unseen report is sent to be marked |
| PoliceDashboard.Dashboard.NextPhoto | src/app/police/dashboard/page.tsx:280-284 | advances with the corrected guard; the index stays valid |
| PoliceDashboard.Dashboard.PrevPhoto | src/app/police/dashboard/page.tsx:286-290 | goes back one, never below the main photo |
| MyReports.StatusLabelCases | src/app/my-reports/page.tsx:95-101 | four possible labels; "Rejected" iff not one of the three decisions; the three get distinct labels |
| MyReports.Notified | src/app/my-reports/page.tsx:86-109 | the notified report gains one update and the new label; others unchanged |
| MyReports.FilteredReportsShape | src/app/my-reports/page.tsx:173-177 | the filter distributes over an append, so it keeps the list's order; an empty search keeps every report |
| MyReports.FilteredReports | src/app/my-reports/page.tsx:173-177 | exactly the reports that match the search are kept |
| MyReports.LabelColours | src/app/my-reports/page.tsx:95-101 | of the labels a notification sets, only "Found" (SOLVED) has its own colour |
| MyReports.StatusColorCases | src/app/my-reports/page.tsx:179-194 | colour ignores case; only pending, active, found are not gray |
| MyReports.BadgeShape | src/app/my-reports/page.tsx:347-349 | shown iff the count is positive; "99+" above 99; otherwise reads back as the count |
| MyReports.UpdatesTextShape | src/app/my-reports/page.tsx:354-356 | a positive count is written out and reads back, plural unless 1; none or 0 reads "No new updates" |
| MyReports.MyReportsPage.constructor | src/app/my-reports/page.tsx:40-44 | no reports, empty search |
| MyReports.MyReportsPage.OnNotification | src/app/my-reports/page.tsx:86-109 | applies the notification to the list |
| ReportStatusRoute.ActionForCases | src/app/api/police/update-report-status/route.ts:51-65 | three statuses name their action; every other status is "family notified" |
| ReportStatusRoute.UnknownOfficerWritesNothing | src/app/api/police/update-report-status/route.ts:10-19 | 400 iff the officer is unknown, and then nothing is written |
| ReportStatusRoute.MissingReport | src/app/api/police/update-report-status/route.ts:21-42 | an unknown report writes nothing; 500 for NOTIFIED_FAMILY, 404 otherwise |
| ReportStatusRoute.ExistingReport | src/app/api/police/update-report-status/route.ts:26-89 | stores the status, sets the one action, raises flags only for NOTIFIED_FAMILY, changes no other report |
| ReportStatusRoute.CaseStatusAfter | src/app/api/police/update-report-status/route.ts:91-113 | SOLVED moves the case to Found, SENT_TEAM to Investigating, else no case changes; a missing person gives 500 |
| ReportStatusRoute.PutIdempotent | src/app/api/police/update-report-status/route.ts:5-121 | repeating a request leaves the database as one request does |
| ReportStatusRoute.CaseStatusMatchesReporterLabel | src/app/api/police/update-report-status/route.ts:91-104 | the case status written equals the label the reporter's page shows |
| ReportStatusRoute.Store.Put | src/app/api/police/update-report-status/route.ts:5-121 | the writes, in the route's order, give the new state and reply of `PutSpec` |
| NearestPoliceRoute.NearestIndex | src/app/api/nearest-police/route.ts:24-33 | keeps the first index of a smallest comparable distance, or none |
| NearestPoliceRoute.FirstMinimumUnique | src/app/api/nearest-police/route.ts:24-33 | that index is unique |
| NearestPoliceRoute.Distances | src/app/api/nearest-police/route.ts:27-28 | one distance per officer, in order |
| NearestPoliceRoute.NearestPolice | src/app/api/nearest-police/route.ts:6-35 | 400 iff a coordinate is unreadable; 204 iff no officers (the intended reply, see Findings); never 500; else the first nearest officer and its distance, or null |
| NearestPoliceRoute.JsonReply | src/app/api/nearest-police/route.ts:37-40 | a JSON reply with a null body status (101, 103, 204, 205, 304) is refused and the `catch` answers 500; any other status passes the reply through |
| NearestPoliceRoute.AsWrittenEmptyListFails | src/app/api/nearest-police/route.ts:20-22 | as written, a valid position with no officers is answered with 500 |
| NearestPoliceRoute.DefaultPosition | src/app/api/nearest-police/route.ts:9-10 | without a position the route measures from (0, 0) |

## Left out

- **External code.** Object detection, OCR, the Haar face cascade, DeepFace,
  dlib landmarks, the VGG16 Grad-CAM computation, image download and
  decoding. Their results are parameters.
- **Databases and transport.** Prisma queries, `fetch`, `localStorage`, the
  socket connections, `setInterval` and `setTimeout`. Their results are
  parameters, "succeeded" flags, or one method call per event.
- **Numeric and string functions that are characterised, not computed.**
  - Square roots: `IsRoot` states only what the scores need.
  - Haversine: the great-circle distance is an input function.
  - `toFixed(2)`: not modelled.
- **`Date` arithmetic** for the "last seen within" filter. It is an abstract
  period.
- **JavaScript number syntax.** `Number`/`parseFloat` read only
  sign/digits/fraction; exponents, hex and `Infinity` are not modelled.
- **Case folding** is ASCII only.
- **JSX rendering, styling and navigation**, except the carousel's counter
  and disabled test, which the photo finding relies on.
- **The other-persons request.** Its query (`excludeNearby` and position,
  `src/app/missing-persons/page.tsx:343-347`) goes to the list route, which
  is not part of this model. Only the page's filtering of the answer is
  modelled.
- **Nearest-police officer coordinates.** Each officer's coordinates are
  folded into the distance input. A `null` coordinate counts as 0 in the
  route's arithmetic, so such an officer is measured at (0, 0); a NaN
  distance is `None`.
- **UTF-16.** Strings are sequences of characters, while JavaScript's
  `length`, `charAt`, `slice` and `split` count UTF-16 code units. Text
  outside the Basic Multilingual Plane (emoji, for example) can therefore
  be masked, trimmed or measured differently.
- **Unused Verhoeff table.** `VERHOEFF_TABLE_INV` (`backend/main.py:71`) is
  never used by the source.
- Verhoeff.ValidateVerhoeff: the model covers only the ASCII-digit input
  that `validate_aadhaar` supplies after `re.sub(r'[^0-9]', '', ...)`.
  On its own, Python's `str.isdigit()` also admits other Unicode decimal
  digits, which `int()` reads, and characters such as '²', on which
  `int()` raises; neither case is modelled.
- Verhoeff.SingleDigitErrorDetected: adjacent-transposition detection, the
  scheme's other guarantee, is not proved. Only single-digit errors are.
- Verhoeff.ValidateAadhaar: its `ensures` give the accepted direction.
  `ReservedPrefixRejected` and `AadhaarSingleDigitError` give rejections,
  not the full converse.
- FaceComparison.Round2: Python's `round` on binary floats (half to even,
  representation error) is modelled as exact half-up rounding to
  hundredths.
- FaceComparison.CompareFaces: the outer `except` that answers 500
  (`backend/main.py:380-382`) is not modelled. The 400 messages for
  download and matcher failures are returned but not stated in the
  `ensures`.
- FaceComparison.SquaredDistance: landmark coordinates are exact
  integers. The numpy `int` overflow is not modelled.
- ReportStatusRoute.Store.Put: refusing a status string that is not a
  valid enum value is not modelled. The status is stored verbatim. A
  database failure outside the modelled cases is not modelled either.
- AuthForm.AuthPage.ValidatePoliceStep: the two `setFormData` updaters on
  step 2 are applied at once. React's batching order is not modelled.

## Findings

| source | as written | input that shows it | evidently intended | confidence | as-written member | corrected member |
|---|---|---|---|---|---|---|
| src/app/police/dashboard/page.tsx:280-284 | `nextPhoto` advances only while `currentPhotoIndex < additionalPhotos.length - 1`, while the counter shows `i of length + 1` and the button stays enabled until `length` | a report with one additional photo: on the main photo (index 0) the next button is enabled, but clicking it leaves the index at 0, so the additional photo is never shown | advance while `currentPhotoIndex < additionalPhotos.length`, so every photo, the last included, can be reached | not executed | PoliceDashboard.AsWrittenStuckOnMainPhoto, PoliceDashboard.AsWrittenMissesLastPhoto (over PoliceDashboard.NextIndexAsWritten) | PoliceDashboard.EveryPhotoReachable, PoliceDashboard.RunStaysInRange (over PoliceDashboard.NextIndex, used by PoliceDashboard.Dashboard.NextPhoto) |
| backend/main.py:265-268 | the heat map is rectified and divided by its maximum only `if np.max(heatmap) != 0`, testing the maximum before rectifying | `[0.0, -1.0]` keeps its negative value (maximum 0, nothing done); `[-1.0]` is rectified to `[0.0]` and divided by 0, giving NaN | rectify always, then divide only when the rectified maximum is positive, so every value lies in [0, 1] | not executed | FaceComparison.NormaliseAsWrittenKeepsNegatives, FaceComparison.NormaliseAsWrittenDividesByZero (over FaceComparison.NormaliseAsWritten) | FaceComparison.NormaliseInUnitRange, FaceComparison.NormaliseReachesOne (over FaceComparison.Normalise, used by FaceComparison.CompareFaces) |
| src/app/api/nearest-police/route.ts:20-22 | with no officers the route returns `NextResponse.json({ message: ... }, { status: 204 })`, a body with a status that may not carry one, so the Response constructor throws and the `catch` at lines 37-40 answers 500 | a valid `lat` and `lng` with no officers in the database | answer 204 with no body | not executed | NearestPoliceRoute.AsWrittenEmptyListFails (over NearestPoliceRoute.EmptyListReplyAsWritten and NearestPoliceRoute.JsonReply) | NearestPoliceRoute.NearestPolice, whose contract answers 204 iff there are no officers and never 500 |
