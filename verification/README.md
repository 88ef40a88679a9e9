# Anveshan Sutra — a verified model of the matching and onboarding core

Anveshan Sutra matches NGOs with funders. This project models its core in Dafny and proves properties of the model:

- **Search endpoint.** The model covers the catalog of organizations (static records plus remote rows) and the five filters. It also covers the alignment score and the four sort keys of `GET /api/search`, and the single-record lookup with its baseline score (`search.dfy`, `ranking.dfy`).
- **Submission wizard.** This is the five-step form through which an organization is submitted or edited: role, basic info, details, documents, review (`org_submit.dfy`).
- **Server auth routes.** These keep an in-memory registry of users keyed by e-mail and a table of issued bearer tokens (`auth_routes.dfy`).
- **Client auth service.** The model covers how a session's identity and profile row become an `AuthUser`, and how a profile update is merged and packed. It also covers the answers of the deprecated password calls and the storage path of an uploaded avatar (`auth_service.dfy`).
- **Profile settings page.** This covers the avatar initials, the checks on a picked avatar file, the preference switches filled in on load, and the avatar handler (`profile_settings.dfy`).
- **Demonstration summarizer.** This is the page that keeps the first third of a text's sentences (`text_maker.dfy`).
- **Shared helpers.** `text.dfy` holds the JavaScript string operations the code relies on: `toLowerCase`/`toUpperCase`, `trim`, `includes`, `split`/`join` and `replace` with a string pattern.

## How the model is shaped

**Pure code and stateful code.** Pure code (validators, scoring, filters, record building) is written as functions with contracts. Code that changes state step by step is written as classes whose methods carry `modifies` clauses:
- `AuthRegistry`: the module-global `users`/`tokens` maps;
- `SubmissionWizard`: the wizard's `currentStep` and `formData`;
- `ProfilePage`: the avatar state;
- `TextMakerPage`: the summarizer's state.

Each method is tied by its postcondition to a specification function of the old state. The invariants are proved about those functions.

**Inputs from outside.** Everything the code obtains from outside is a parameter:
- the remote table;
- the identity provider's and the database's answers;
- the password hash;
- fresh tokens, user ids and timestamps;
- `localeCompare`.

**Scoring arithmetic.** The source computes `Math.round(score * (org.confidence / 100))` in binary floating point. The model replaces this with exact integer arithmetic: it takes the confidence as an integer and rounds the exact product half up, as `(raw * confidence + 50) / 100` with floor division. The two can differ by one (see "## Left out").

**`fundingType` is case-sensitive.** The filter and the +10 bonus compare `fundingType` with `===`/`!==` (server/routes/search.ts:30, :77). Unlike `focusArea` and `region`, this match is therefore case-sensitive; see `Search.FundingTypeBonusIff` and `Search.FundingTypeIsCaseSensitive`.

## Model

| member | source | states |
|---|---|---|
| Text.Lower | server/routes/search.ts:15 | `toLowerCase` keeps the length and maps every character through the ASCII lower-case mapping |
| Text.Upper | client/pages/ProfileSettings.tsx:92 | `toUpperCase` keeps the length and maps every character through the ASCII upper-case mapping |
| Text.IsBlank | client/pages/TextMaker.tsx:29 | `!text.trim()`: every character is JavaScript whitespace |
| Text.Contains | server/routes/search.ts:51 | `includes`: the needle is a prefix of some suffix of the haystack |
| Text.SplitOn | client/pages/TextMaker.tsx:37 | `split` with a non-empty separator yields at least one piece, and the first piece is a prefix of the string |
| Text.SplitPiecesAvoidOccurrence | client/pages/TextMaker.tsx:37 | for a separator of any length, such as ". ", no piece contains an occurrence of it |
| Text.JoinSplit | client/pages/TextMaker.tsx:37-39 | joining the pieces of a split with the same separator restores the original string |
| Text.Join | client/pages/TextMaker.tsx:39 | `join`: the pieces with the separator between consecutive ones |
| Text.SplitPiecesAvoidSeparator | client/pages/ProfileSettings.tsx:89 | with a one-character separator, no piece contains that character |
| Text.SplitLeadingWord | client/pages/ProfileSettings.tsx:89 | a word free of the separator, followed by the separator, is split off whole |
| Text.SplitWithoutSeparator | client/lib/services/auth.ts:372 | a string without the (one-character) separator splits into itself alone |
| Text.SplitWithoutOccurrence | client/pages/TextMaker.tsx:37 | a string in which the separator never occurs splits into itself alone |
| Text.FirstPieceIsPrefix | client/lib/services/auth.ts:191 | the first piece of a split is a prefix of the string |
| Text.LastPieceIsSuffix | client/lib/services/auth.ts:372 | the last piece of a split (`pop()`) is a suffix of the string |
| Text.SplitLastPiece | client/lib/services/auth.ts:372-373 | after a final separator, a separator-free tail is exactly the last piece, and there are at least two pieces |
| Text.StripLeading | server/routes/auth.ts:139 | `replace("Bearer ", "")` on `"Bearer " + t` gives back `t` |
| Text.ReplaceFirst | server/routes/auth.ts:139 | `replace` with a string pattern: only the first occurrence is replaced |
| Ranking.Insert | server/routes/search.ts:131 | insertion keeps the multiset of elements and adds one copy of the new element |
| Ranking.SortBy | server/routes/search.ts:129-143 | the stable sort `Array.sort` performs returns a permutation of its input |
| Ranking.InsertSorted | server/routes/search.ts:131 | inserting into a sorted list under a total preorder keeps it sorted |
| Ranking.SortBySorted | server/routes/search.ts:129-143 | under a total preorder comparator, the sort's result is sorted |
| Ranking.InsertTies | server/routes/search.ts:131 | insertion places an element ahead of every element it ties with, which keeps an earlier input element first among its ties |
| Ranking.SortByStable | server/routes/search.ts:129-143 | the sort is stable: elements that tie keep their relative order |
| Search.OrEmpty | server/routes/search.ts:92-96 | a missing query parameter reads as "" and a present one as itself |
| Search.ParamsOf | server/routes/search.ts:91-100 | each filter parameter is the query value or ""; `sortBy` is never empty, is "alignment" when missing or empty, and is the query value otherwise |
| Search.RawScore | server/routes/search.ts:10-34 | the score before confidence is between the base 50 and 100 |
| Search.ScaledRound | server/routes/search.ts:37-39 | the rounded product is within half a unit of `raw * confidence / 100` |
| Search.Clamp | server/routes/search.ts:39 | `min(100, max(0, x))` is in [0, 100] and leaves values already in range unchanged |
| Search.AlignmentScore | server/routes/search.ts:6-40 | the alignment score is always in [0, 100]; for a confidence in [0, 100] it is the rounded scaled raw score and the clamp does nothing |
| Search.ScaledInRange | server/routes/search.ts:37-39 | a raw score in [0, 100] scaled by a confidence in [0, 100] stays in [0, 100] |
| Search.ScaledRoundMonotone | server/routes/search.ts:37-39 | the rounded scaled score grows with both the raw score and the confidence |
| Search.BaselineScore | server/routes/search.ts:183-184 | without focus, region and funding parameters, the score is the clamped rounding of (50, plus 5 when verified) × confidence / 100 |
| Search.ScoreAtLeastBaseline | server/routes/search.ts:10-39 | bonuses only add: any query scores an organization at least as high as the baseline |
| Search.ScoreMonotoneInConfidence | server/routes/search.ts:37 | raising an organization's confidence never lowers its score |
| Search.QueryMatches | server/routes/search.ts:48-57 | the lower-cased query occurs in the lower-cased name, mission, description or some focus-area label |
| Search.HasFocusArea | server/routes/search.ts:59-65 | some focus-area label equals the parameter, ignoring case |
| Search.RegionMatches | server/routes/search.ts:67-73 | the lower-cased region contains the lower-cased parameter |
| Search.Matches | server/routes/search.ts:46-86 | a record passes when every non-empty parameter accepts it; funding type and verification status are compared exactly |
| Search.FocusAreaBonusIff | server/routes/search.ts:13-18 | the +20 is earned exactly when a focus-area label equals the parameter, ignoring case; otherwise nothing is added |
| Search.RegionBonusIff | server/routes/search.ts:21-26 | the +15 is earned exactly when the region contains the parameter, ignoring case |
| Search.FundingTypeBonusIff | server/routes/search.ts:29-31 | the +10 is earned exactly when the funding type equals the parameter, case-sensitively |
| Search.FundingTypeIsCaseSensitive | server/routes/search.ts:30 | "grant" against "Grant" earns no funding bonus |
| Search.FullMatchExample | server/routes/search.ts:10-39 | all bonuses at confidence 100 score 100; at confidence 50 they score 50 |
| Search.FilterOrganizations | server/routes/search.ts:42-87 | the filter keeps an order-preserving subsequence of the catalog; every kept record passes every non-empty parameter; each matching record is kept as often as it occurs |
| Text.SubsequenceShorter | server/routes/search.ts:46 | a subsequence is no longer than the list it comes from |
| Search.FilterUnconstrained | server/routes/search.ts:46-86 | with every filter parameter empty, the whole catalog comes back unchanged |
| Search.FilterMonotone | server/routes/search.ts:56-83 | adding constraints yields a subsequence of the previous result, never a longer list |
| Search.Catalog | server/routes/search.ts:102-113 | the catalog starts with the static list and continues with the remote rows exactly when the fetch succeeded |
| Search.CatalogCounts | server/routes/search.ts:102-113 | the catalog is the static list plus the remote rows when the fetch succeeded, without deduplication |
| Search.ScoreAll | server/routes/search.ts:123-126 | each kept record is paired, position by position, with its own alignment score |
| Search.ScoreOrdersArePreorders | server/routes/search.ts:131-134 | the alignment and confidence comparators are total preorders |
| Search.NameOrderIsPreorder | server/routes/search.ts:137 | a total preorder on names gives a total preorder on results |
| Search.Rank | server/routes/search.ts:129-143 | ranking permutes the scored results; "recency" and unknown keys keep the order |
| Search.RankOrdered | server/routes/search.ts:129-143 | by "alignment" and by "confidence" the values are non-increasing; by "name" the result is ordered by the name comparator |
| Search.RankStable | server/routes/search.ts:129-143 | results tying under the sort key keep their relative order |
| Search.ScoredResultsSound | server/routes/search.ts:120-126 | every scored result is a catalog record that passed the filter, carrying its own score |
| Search.HandleSearch | server/routes/search.ts:89-155 | `total` is the list length; the list is a permutation of the scored filtered catalog; each entry matches, comes from the catalog and carries its score; the order is what the sort key promises, and it is stable |
| Search.FindById | server/routes/search.ts:160 | `find` returns the first record in list order carrying the id, and nothing exactly when no record carries it |
| Search.RowsWithId | server/routes/search.ts:165-169 | the remote query by id returns exactly the rows carrying that id |
| Search.RemoteSingle | server/routes/search.ts:163-177 | `.single()` yields the row when exactly one fetched row carries the id, and nothing when none or several do or the table is unavailable |
| Search.GetOrganization | server/routes/search.ts:157-196 | a found record has the id and the baseline score, and comes from the static list or the remote table; when a static record carries the id, the answer is the first such static record, as `find` returns |
| Search.NoRowsWithId | server/routes/search.ts:169 | when no row carries the id, the query returns no row |
| Search.UniqueRowsWithId | server/routes/search.ts:169 | with unique remote ids, at most one row carries a given id |
| Search.NotFoundIff | server/routes/search.ts:179-181 | the lookup answers not found exactly when the id is in neither the static list nor an available remote table |
| OrgSubmit.ValidateStep | client/pages/OrgSubmit.tsx:220-268 | step 0 needs a role; step 1 a non-blank name and a type; step 2 a non-blank mission, description and region and a focus area; step 4 the confirmation; every other step passes |
| OrgSubmit.NextStep | client/pages/OrgSubmit.tsx:270-274 | Continue stays put when the step fails validation, otherwise moves to min(4, step + 1) |
| OrgSubmit.PreviousStepAsWritten | client/pages/OrgSubmit.tsx:280-282 | Previous as written yields max(1, step − 1), never below 1 |
| OrgSubmit.PreviousStep | client/pages/OrgSubmit.tsx:280-282 | the corrected Previous steps back from 2 or later, stays on step 1, and stays on step 0 |
| OrgSubmit.TotalSteps | client/pages/OrgSubmit.tsx:276-278 | there are 5 steps once a role is chosen and 1 before |
| OrgSubmit.ShowsContinue | client/pages/OrgSubmit.tsx:919 | Continue shows before the last step |
| OrgSubmit.ShowsSubmit | client/pages/OrgSubmit.tsx:926 | Submit shows on the last step only |
| OrgSubmit.PreviousEnabled | client/pages/OrgSubmit.tsx:914 | Previous is disabled only on step 1 |
| OrgSubmit.ToggleFocusArea | client/pages/OrgSubmit.tsx:211-218 | checking appends the label at the end; unchecking removes every occurrence and keeps every other label |
| OrgSubmit.RemoveAll | client/pages/OrgSubmit.tsx:216 | the filter drops the label and keeps every other label as often as before |
| OrgSubmit.RemoveAllKeepsOrder | client/pages/OrgSubmit.tsx:216 | the result of unchecking is a subsequence of the list: the remaining labels keep their relative order |
| OrgSubmit.RemoveAllAppend | client/pages/OrgSubmit.tsx:216 | removing a label from a list ending in it is the same as removing it from the rest |
| OrgSubmit.CheckThenUncheck | client/pages/OrgSubmit.tsx:211-218 | checking and then unchecking a box leaves no trace of the label |
| OrgSubmit.RoleForType | client/pages/OrgSubmit.tsx:69 | in edit mode the role is funder exactly for Foundation and CSR |
| OrgSubmit.FormForEdit | client/pages/OrgSubmit.tsx:55-70 | the edit form copies name, type, headquarters, region, focus areas, mission, description and funding type from the stored organization, defaults a missing website to "", derives the role and clears the confirmation |
| OrgSubmit.ReachableOffersWayForward | client/pages/OrgSubmit.tsx:912-936 | in every reachable state the navigation bar shows Continue or Submit |
| OrgSubmit.StepsPreserveReachable | client/pages/OrgSubmit.tsx:270-282 | Continue and the corrected Previous keep the wizard in a reachable state |
| OrgSubmit.PreviousAsWrittenStrandsFreshWizard | client/pages/OrgSubmit.tsx:280-282 | as written, Previous on a fresh wizard lands on step 1 with no role, where neither Continue nor Submit shows and Previous is disabled |
| OrgSubmit.SubmissionWizard.constructor | client/pages/OrgSubmit.tsx:41-42 | a new wizard starts on step 0 with the initial form |
| OrgSubmit.SubmissionWizard.LoadForEdit | client/pages/OrgSubmit.tsx:55-72 | edit mode fills the form from the stored organization and starts on step 1 |
| OrgSubmit.SubmissionWizard.SelectRole | client/pages/OrgSubmit.tsx:501 | choosing a role changes only the role |
| OrgSubmit.SubmissionWizard.SetField | client/pages/OrgSubmit.tsx:204-209 | a text input replaces exactly its own field |
| OrgSubmit.SubmissionWizard.SetConfirmation | client/pages/OrgSubmit.tsx:895-897 | the confirmation box replaces only the confirmation |
| OrgSubmit.SubmissionWizard.ChangeFocusArea | client/pages/OrgSubmit.tsx:211-218 | a checkbox change applies the toggle to the focus areas and nothing else |
| OrgSubmit.SubmissionWizard.Next | client/pages/OrgSubmit.tsx:270-274 | the step becomes the Continue successor; the form is unchanged; the wizard stays reachable |
| OrgSubmit.SubmissionWizard.Previous | client/pages/OrgSubmit.tsx:280-282 | the step becomes the corrected Previous predecessor; the wizard stays reachable |
| OrgSubmit.SubmissionWizard.Submit | client/pages/OrgSubmit.tsx:284-300 | something is sent exactly when the confirmation is ticked, and it is the form's organization data |
| AuthRoutes.ErrorStatus | server/routes/auth.ts:36-155 | validation failures and a taken e-mail answer 400; bad credentials and missing or unknown tokens answer 401 |
| AuthRoutes.ParseRole | server/routes/auth.ts:28 | the role must be exactly "ngo" or "funder" |
| AuthRoutes.IsEmail | server/routes/auth.ts:25 | an approximation of zod's e-mail rule (see below) |
| AuthRoutes.ValidSignup | server/routes/auth.ts:24-29 | a valid e-mail, a password of at least 6 characters, a non-empty name and a known role |
| AuthRoutes.ValidLogin | server/routes/auth.ts:31-34 | a valid e-mail and a non-empty password |
| AuthRoutes.VerifyPassword | server/routes/auth.ts:20-22 | the stored hash equals the hash of the attempt |
| AuthRoutes.NewUser | server/routes/auth.ts:47-56 | a new user has the given id, the requested e-mail, name and role, its creation and update timestamps taken from two separate clock reads, and is neither complete nor verified |
| AuthRoutes.Signup | server/routes/auth.ts:36-86 | invalid input answers 400, and so does a taken e-mail, with both maps unchanged; a valid request with a fresh e-mail succeeds with the new user and the token; success adds exactly one user under its e-mail with the password's hash, and one token for that user |
| AuthRoutes.Login | server/routes/auth.ts:88-135 | invalid input answers 400; an unknown e-mail or a wrong password answers 401 and issues no token; a valid, known e-mail with a verifying password succeeds; success issues one token mapped to the stored user |
| AuthRoutes.CurrentUser | server/routes/auth.ts:137-155 | the token is the header without "Bearer "; a missing or empty token and an unknown token are refused; otherwise the answer is exactly the user stored under the token |
| AuthRoutes.VerifyOwnHash | server/routes/auth.ts:14-22 | a password always verifies against its own hash |
| AuthRoutes.SignupKeepsConsistent | server/routes/auth.ts:63-67 | signup keeps every user filed under its own e-mail and every token pointing at a registered user; no map loses an entry |
| AuthRoutes.LoginKeepsConsistent | server/routes/auth.ts:116 | login keeps the same invariant and never removes an entry |
| AuthRoutes.LoginAfterSignup | server/routes/auth.ts:36-101 | a fresh signup can log in at once with the same credentials and gets back the user it created |
| AuthRoutes.TokenIdentifiesUser | server/routes/auth.ts:104-150 | the token a login issues, sent as "Bearer <token>", identifies the user who logged in |
| AuthRoutes.AuthRegistry.constructor | server/routes/auth.ts:7-8 | both maps start empty |
| AuthRoutes.AuthRegistry.HandleSignup | server/routes/auth.ts:36-86 | the new maps and the answer are those of `Signup`; the invariant holds and no entry is lost |
| AuthRoutes.AuthRegistry.HandleLogin | server/routes/auth.ts:88-135 | the new maps and the answer are those of `Login`; the invariant holds and no entry is lost |
| AuthRoutes.AuthRegistry.HandleGetCurrentUser | server/routes/auth.ts:137-155 | the answer is `CurrentUser` of the token table, and a returned user is the registered user filed under its e-mail |
| AuthService.DropEmpty | client/lib/services/auth.ts:195-198 | falling back to `undefined` keeps exactly the present, non-empty strings |
| AuthService.EmailLocalPart | client/lib/services/auth.ts:191 | `email.split('@')[0]` is a prefix of the e-mail that holds no '@' |
| AuthService.BuildAuthUser | client/lib/services/auth.ts:188-202 | the name is the first non-empty of profile name, metadata name and e-mail local part, else ""; the role is the first non-empty of profile role and metadata role, else "ngo"; the flags are true only when stored true; empty optional texts are dropped; missing preferences default to notifications on, system theme, newsletter off; a missing creation or update timestamp defaults to its own clock read |
| AuthService.NameFallsBackToLocalPart | client/lib/services/auth.ts:191 | without a profile or metadata name, `local@domain` is called `local` |
| AuthService.CurrentUser | client/lib/services/auth.ts:169-209 | a user is returned exactly when the client is configured, the provider reports no error and a user exists, and then it is the built `AuthUser`; otherwise a non-empty error message is returned |
| AuthService.MergePreferences | client/lib/services/auth.ts:279-281 | every key present in the update wins; every other key keeps the current value, or is absent when nothing was stored |
| AuthService.MergeIdempotent | client/lib/services/auth.ts:279-281 | applying the same preference update twice gives the same result as once |
| AuthService.CompleteUpdateReplaces | client/lib/services/auth.ts:279-281 | an update naming every key replaces the stored preferences |
| AuthService.EmptyUpdateKeeps | client/lib/services/auth.ts:279-281 | an update naming no key keeps the stored preferences, or `{}` |
| AuthService.KeysFollowPresence | client/lib/services/auth.ts:283-293 | the keys of the update object follow from which fields it holds |
| AuthService.BuildUpdateData | client/lib/services/auth.ts:283-293 | the update object holds `updated_at` and exactly the defined fields with their values; it has preferences only when the update supplied them, and then they are the merged preferences |
| AuthService.MagicLink | client/lib/services/auth.ts:20-46 | the link is sent exactly when the client is configured and the provider reports no error; a failure always carries a message |
| AuthService.DeprecatedSignUp | client/lib/services/auth.ts:112-125 | signUp never returns a user; on success it answers the "Check your email" message, otherwise the link's error |
| AuthService.DeprecatedSignIn | client/lib/services/auth.ts:132-143 | signIn never returns a user or a token; on success it answers the "Check your email" message, otherwise the link's error |
| AuthService.DeprecatedCallsNeverSignIn | client/lib/services/auth.ts:118-143 | whatever the provider answers, the deprecated calls sign nobody in and always report a message |
| AuthService.DecimalString | client/lib/services/auth.ts:373 | the timestamp renders as a non-empty string of decimal digits, without a leading zero, whose value is the timestamp |
| AuthService.Extension | client/lib/services/auth.ts:372 | the extension is a dot-free suffix of the file name, and when it is shorter than the name a dot stands right before it: the text after the last dot |
| AuthService.AvatarPath | client/lib/services/auth.ts:372-374 | the path is "avatars/", the user id, "-", the timestamp's digits, ".", and the extension |
| AuthService.AvatarPathKeepsExtension | client/lib/services/auth.ts:372-374 | the stored object has the uploaded file's extension |
| AuthService.ExtensionOfDotlessName | client/lib/services/auth.ts:372 | a file name without a dot is taken whole as the extension |
| ProfileSettings.NonEmptyWords | client/pages/ProfileSettings.tsx:89-91 | the words contributing an initial are the non-empty words of the split, in order, each as often as in the split |
| ProfileSettings.FirstLetters | client/pages/ProfileSettings.tsx:90-91 | one letter per non-empty word, its first, in order |
| ProfileSettings.GetInitials | client/pages/ProfileSettings.tsx:87-94 | at most two characters: the upper-cased first letters of the first non-empty space-separated words, in order |
| ProfileSettings.AvatarFallback | client/pages/ProfileSettings.tsx:268 | an empty name shows "U"; any other name shows its initials |
| ProfileSettings.InitialsHaveNoSpace | client/pages/ProfileSettings.tsx:87-94 | initials never contain a space |
| ProfileSettings.TwoWordInitials | client/pages/ProfileSettings.tsx:87-94 | two words give one upper-cased letter each |
| ProfileSettings.LeadingSpaceIgnored | client/pages/ProfileSettings.tsx:88-92 | a leading space does not change the initials |
| ProfileSettings.CheckAvatar | client/pages/ProfileSettings.tsx:105-123 | a non-image type is refused first; an image over 5 × 1024 × 1024 bytes is refused as too large; all else is accepted |
| ProfileSettings.SizeLimitBoundary | client/pages/ProfileSettings.tsx:116 | exactly 5 MiB is accepted; one byte more is refused |
| ProfileSettings.LoadedPreferences | client/pages/ProfileSettings.tsx:73-75 | notifications are on unless stored off, the newsletter is on only when stored on, and the theme defaults to system |
| ProfileSettings.SavedPreferences | client/pages/ProfileSettings.tsx:190-199 | saving sends all three switches |
| ProfileSettings.NewUserSeesDefaults | client/pages/ProfileSettings.tsx:73-75 | a user without a profile row sees notifications on, newsletter off, system theme |
| ProfileSettings.SaveThenLoad | client/pages/ProfileSettings.tsx:189-199 | saving the switches and loading again shows the same switches, whatever was stored |
| ProfileSettings.ProfilePage.constructor | client/pages/ProfileSettings.tsx:48-49 | the page starts with no avatar URL and no upload in progress |
| ProfileSettings.ProfilePage.HandleAvatarChange | client/pages/ProfileSettings.tsx:101-152 | the upload is requested exactly when an accepted file was picked; no file, a wrong type or an oversized file changes nothing; otherwise the upload ends with no upload in progress, and the avatar URL changes only to a returned URL when no error was reported |
| TextMaker.DropBlank | client/pages/TextMaker.tsx:37 | the kept pieces are the non-blank ones, in order, each as often as in the split |
| TextMaker.Sentences | client/pages/TextMaker.tsx:37 | the non-blank pieces of the text split at every ". " |
| TextMaker.SummaryLength | client/pages/TextMaker.tsx:38 | the count is min(3, ⌈n/3⌉): at most 3, at most n, at least 1 when n ≥ 1, never a full three sentences past ⌈n/3⌉, and ⌈n/3⌉ below 3 |
| TextMaker.ChosenSentences | client/pages/TextMaker.tsx:37-38 | the chosen sentences are a prefix of the non-blank pieces, of the summary length |
| TextMaker.Summarize | client/pages/TextMaker.tsx:28-39 | blank text gives no summary; otherwise the chosen sentences joined by ". " and closed with "." |
| TextMaker.SummaryEndsWithFullStop | client/pages/TextMaker.tsx:39 | every summary ends with "." |
| TextMaker.SomeSentenceKept | client/pages/TextMaker.tsx:37-38 | one non-blank piece suffices for at least one chosen sentence |
| TextMaker.OnlyABreak | client/pages/TextMaker.tsx:29-39 | the non-blank text ". " holds no sentence and summarizes to a lone "." |
| TextMaker.SingleSentence | client/pages/TextMaker.tsx:37-39 | a text with no ". " summarizes to itself plus "." |
| TextMaker.TextMakerPage.constructor | client/pages/TextMaker.tsx:9-11 | the page starts with empty text and summary, not processing |
| TextMaker.TextMakerPage.ChangeText | client/pages/TextMaker.tsx:24-26 | editing replaces only the text |
| TextMaker.TextMakerPage.HandleSummarize | client/pages/TextMaker.tsx:28-41 | blank text changes nothing; otherwise the summary becomes `Summarize(text)` and processing ends |

## Left out

- Remote I/O. Supabase queries, the identity provider and the storage bucket are not called. Their answers are parameters: the remote table, the provider's error or user, the profile row, the upload result. Exceptions thrown by these calls, and the 500 answers that follow them, are not modelled.
- Floating point. The model computes `Math.round(score * (confidence / 100))` exactly in integers, so binary floating-point rounding of that product is not modelled, and the model can score one point higher than the source. For raw score 50 and confidence 29, the source computes `50 * 0.29 = 14.499999999999998` and returns 14, where the model returns 15. The pairs (50, 57), (75, 82), (85, 70) and (90, 35) diverge the same way. Raw 50 is the baseline score of an unverified record at the single-record endpoint.
- Case mapping. `toLowerCase`/`toUpperCase` map ASCII letters only. Unicode case folding is not modelled.
- Ranking.SortBy: `Array.sort` sorts the array in place. The model sorts a sequence value (a stable insertion sort), so in-place update and aliasing of the array are not captured.
- Search.ByName: `localeCompare` is locale-dependent and is an abstract comparator parameter. Name ordering and stability are proved only when that comparator is a total preorder.
- Search.HandleSearch: records carry only the fields the search logic reads. The other organization fields (projects, beneficiaries and so on) are not modelled.
- AuthRoutes.ValidSignup: zod's `.min(6)` counts UTF-16 code units, while the model counts the characters of a `seq<char>` (Unicode scalar values). A password of three characters outside the Basic Multilingual Plane has length 6 in the source and is accepted there, but the model refuses it.
- ProfileSettings.FirstLetters: `n[0]` takes one UTF-16 code unit, which is half a surrogate pair for a character outside the Basic Multilingual Plane. The model takes the whole character.
- AuthRoutes.IsEmail approximates zod's e-mail rule. It requires one '@', a non-empty local part, non-empty dot-separated domain labels ending in one of two or more characters, and no whitespace.
- Randomness and time. `crypto` (the PBKDF2 hash, random tokens, UUIDs) and the clock are parameters: an arbitrary deterministic hash function, fresh token, id and timestamp values. Each clock read in the source is its own parameter, so the two timestamps of a new user, and the two timestamp fallbacks of a built `AuthUser`, may differ. Token freshness is not modelled, so a reused token overwrites its entry as `Map.set` would.
- AuthService.MergePreferences: a key written explicitly as `undefined` in an update spread is treated like an absent key.
- Other client auth calls. The OAuth sign-ins, `signOut`, `getSession`, `onAuthStateChange` and `updatePassword` are provider calls with no logic beyond passing results through. Only the magic-link result feeding the deprecated calls is modelled.
- The rest of the profile page. The profile text fields loaded with `|| ""`, and the save handlers' toasts and `saving` flag, are not modelled beyond the preference round trip.
- User interface. React rendering, toasts, navigation, the progress ring, the two-second delay of the summarizer, clipboard and downloads are not modelled.
- Funder-only wizard fields and array inputs. These are the grant budget, grant size and preferred NGO types set through `handleInputChange`. `SetField` covers the text inputs only.

## Findings

| source | as written | input that shows it | evidently intended | confidence | as-written member | corrected member |
|---|---|---|---|---|---|---|
| client/pages/OrgSubmit.tsx:280-282 | Previous sets the step to max(1, step − 1), and the button is enabled on step 0 | a fresh wizard (no role) on step 0, Previous pressed: the step becomes 1 with no role; with one total step, step 1 shows neither Continue nor Submit, and Previous is disabled on step 1, so the form is stuck | Previous never moves forward: from step 0 it stays on step 0 | not executed | OrgSubmit.PreviousAsWrittenStrandsFreshWizard | OrgSubmit.StepsPreserveReachable |
