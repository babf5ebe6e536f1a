# Ideafy: a Dafny model of the idea dashboard, the submission form and the page gating

Ideafy is a single-page front end where a visitor submits a startup idea, gets
a mocked "AI" analysis of it (a market-potential rating, a SWOT list, numbered
recommendations and an overall score) and browses a list of community ideas.
This project models the logic of that front end in Dafny and proves what it
promises:

- `text.dfy` (module `Text`): ASCII case folding (`toLowerCase`) and substring
  search (`includes`), with the search proved equal to the positional
  definition of a substring.
- `presentation.dfy` (module `Presentation`): the three colour bands and the
  five-star row that both the dashboard and the analysis page draw.
- `dashboard.dfy` (module `Dashboard`): the `filteredIdeas` chain, a
  case-insensitive title search and a category filter followed by a sort on
  score, popularity (upvotes minus downvotes) or date, plus the score colour
  and the rating stars of an idea card.
- `submission_form.dfy` (module `SubmissionForm`): the submission form as a
  class over its state (`ideaData`, `isAnalyzing`, `analysisResult`) with the
  field edit, file attachment, submit, analysis completion and "new idea"
  handlers, and the mock analysis as a function of the two random draws.
- `chatbot_analysis.dfy` (module `ChatbotAnalysis`): the analysis page's
  rating and score colours, star row, 200-character description preview and
  recommendation numbering, and the fact that every analysis the form
  produces gets a green rating colour (and would get a green score colour,
  although the page never applies that one).
- `index_page.dfy` (module `IndexPage`): the landing page's three state
  variables (`currentView`, `isAuthOpen`, `isAuthenticated`) as a transition
  function over events and a class whose handlers follow it; the invariant
  that the submission form and the dashboard are only current for a
  signed-in visitor holds in every reachable state.

Randomness, time and the browser are parameters: `Math.floor(Math.random() * 2)`
and `Math.floor(Math.random() * 20)` are caller-supplied draws in 0..1 and
0..19, the three-second delay is an explicit completion event, and dates are
integers that grow with time. With these draws the overall score is 80 to 99;
the source's comment "80-100" overstates it, and `SubmissionForm.MockScores`
proves that 100 is never produced.

## Model

| member | source | states |
|---|---|---|
| `Text.Lower` | Ideafy/src/components/Dashboard.tsx:77 | `toLowerCase` keeps the length and folds each character on its own |
| `Text.LowerIdempotent` | Ideafy/src/components/Dashboard.tsx:77 | lower-casing an already lower-cased string changes nothing |
| `Text.Includes` | Ideafy/src/components/Dashboard.tsx:77 | `includes` always finds the empty term and only finds terms no longer than the string |
| `Text.IncludesIff` | Ideafy/src/components/Dashboard.tsx:77 | `includes` holds exactly when the term occurs at some index of the string |
| `Text.IncludesEmpty` | Ideafy/src/components/Dashboard.tsx:76-78 | every string includes the empty term |
| `Presentation.StarRow` | Ideafy/src/components/ChatbotAnalysis.tsx:123-132 | `[...Array(5)].map((_, i) => i < rating)`: a row of exactly five stars |
| `Presentation.StarRowFilled` | Ideafy/src/components/Dashboard.tsx:99-104 | a star row has 5 stars, filled ones first, and the rating clamped to 0..5 of them filled |
| `Dashboard.Matches` | Ideafy/src/components/Dashboard.tsx:76-78 | a matching idea has the selected category unless "all" is selected and a title at least as long as the term; with an empty term and "all" every idea matches |
| `Dashboard.Filter` | Ideafy/src/components/Dashboard.tsx:75-79 | every kept idea matches the search and category; each matching idea is kept as often as it occurs, no other idea is kept |
| `Dashboard.Key` | Ideafy/src/components/Dashboard.tsx:81-88 | the value the comparator's `switch` compares: the overall score for "score", upvotes minus downvotes for "popularity", the date for "date" and every other key |
| `Dashboard.ComparatorConsistent` | Ideafy/src/components/Dashboard.tsx:80-89 | the comparator is antisymmetric, total, zero on equal arguments and transitive, so `sort`'s order is well defined |
| `Dashboard.InsertSorted` | Ideafy/src/components/Dashboard.tsx:80-90 | inserting into a list with no pair out of comparator order keeps it so |
| `Dashboard.Sort` | Ideafy/src/components/Dashboard.tsx:80-90 | the sorted list is a permutation of its input with no pair out of comparator order |
| `Dashboard.FilteredIdeas` | Ideafy/src/components/Dashboard.tsx:75-90 | the shown list holds exactly the matching ideas, with their multiplicities, sorted by the comparator |
| `Dashboard.ShownIdeasMatch` | Ideafy/src/components/Dashboard.tsx:76-78 | each shown idea's lower-cased title contains the lower-cased term at some index, and its category equals the filter unless the filter is "all" |
| `Dashboard.EmptySearchKeepsAll` | Ideafy/src/components/Dashboard.tsx:76-78 | with an empty term and "all" the shown list is a permutation of the whole list |
| `Dashboard.SearchIgnoresCase` | Ideafy/src/components/Dashboard.tsx:77 | lower-casing the search term does not change which ideas match |
| `Dashboard.ScoreOrder` | Ideafy/src/components/Dashboard.tsx:82-83 | sorted by "score", overall scores are non-increasing |
| `Dashboard.PopularityOrder` | Ideafy/src/components/Dashboard.tsx:84-85 | sorted by "popularity", upvotes minus downvotes are non-increasing |
| `Dashboard.DateOrder` | Ideafy/src/components/Dashboard.tsx:86-88 | sorted by "date" or an unknown key, dates are non-increasing (newest first) |
| `Dashboard.ScoreColor` | Ideafy/src/components/Dashboard.tsx:92-96 | green exactly from 90, yellow exactly for 80..89, red exactly below 80 |
| `Dashboard.ScoreColorMonotone` | Ideafy/src/components/Dashboard.tsx:92-96 | a higher score never gets a worse band |
| `Dashboard.RatingStars` | Ideafy/src/components/Dashboard.tsx:98-106 | five stars, filled first, the rating clamped to 0..5 of them filled |
| `SubmissionForm.WithField` | Ideafy/src/components/IdeaSubmissionForm.tsx:34-36 | the named field takes the value; the other two fields and the file are unchanged |
| `SubmissionForm.WithFieldUndo` | Ideafy/src/components/IdeaSubmissionForm.tsx:34-36 | writing back a field's old value restores the idea |
| `SubmissionForm.ReadyToSubmit` | Ideafy/src/components/IdeaSubmissionForm.tsx:52 | the required-field check; the empty idea the form starts from and is reset to never passes it |
| `SubmissionForm.MockAnalysis` | Ideafy/src/components/IdeaSubmissionForm.tsx:65-95 | rating is draw + 4 (4 or 5), score is draw + 80 (80..99), and 3/2/3/3 SWOT entries and 4 suggestions |
| `SubmissionForm.MockScores` | Ideafy/src/components/IdeaSubmissionForm.tsx:94 | the scores some draw produces are exactly 80..99; 100 is not among them |
| `SubmissionForm.MockRatings` | Ideafy/src/components/IdeaSubmissionForm.tsx:66 | the ratings some draw produces are exactly 4 and 5 |
| `SubmissionForm.IdeaSubmissionForm.constructor` | Ideafy/src/components/IdeaSubmissionForm.tsx:25-31 | empty title, description and category, no file, not analysing, no result |
| `SubmissionForm.IdeaSubmissionForm.View` | Ideafy/src/components/IdeaSubmissionForm.tsx:107-119 | the analysis page is shown if and only if a result is stored, always for the current idea |
| `SubmissionForm.IdeaSubmissionForm.InputChange` | Ideafy/src/components/IdeaSubmissionForm.tsx:34-36 | only `ideaData` changes, and only in the named field |
| `SubmissionForm.IdeaSubmissionForm.FileUpload` | Ideafy/src/components/IdeaSubmissionForm.tsx:38-47 | no file chosen: nothing changes; otherwise only the file is set |
| `SubmissionForm.IdeaSubmissionForm.Submit` | Ideafy/src/components/IdeaSubmissionForm.tsx:49-61 | starts exactly when all three fields are non-empty; then `isAnalyzing` is set and one analysis scheduled; otherwise nothing changes; the idea never changes |
| `SubmissionForm.IdeaSubmissionForm.CompleteAnalysis` | Ideafy/src/components/IdeaSubmissionForm.tsx:64-98 | stores the mock analysis for the draws, clears `isAnalyzing`, and the analysis page shows |
| `SubmissionForm.IdeaSubmissionForm.NewIdea` | Ideafy/src/components/IdeaSubmissionForm.tsx:113-116 | clears the result and resets the idea to empty fields without a file; the form shows |
| `ChatbotAnalysis.RatingColor` | Ideafy/src/components/ChatbotAnalysis.tsx:40-44 | green exactly from 4, yellow exactly at 3, red exactly below 3 |
| `ChatbotAnalysis.ScoreColor` | Ideafy/src/components/ChatbotAnalysis.tsx:46-50 | green exactly from 80, yellow exactly for 60..79, red exactly below 60 |
| `ChatbotAnalysis.ColorsMonotone` | Ideafy/src/components/ChatbotAnalysis.tsx:40-50 | a higher rating or score never gets a worse band |
| `ChatbotAnalysis.MarketStars` | Ideafy/src/components/ChatbotAnalysis.tsx:123-132 | five stars, filled first, the market potential clamped to 0..5 of them filled |
| `ChatbotAnalysis.DescriptionPreview` | Ideafy/src/components/ChatbotAnalysis.tsx:88 | a prefix of the description of length min(length, 200) |
| `ChatbotAnalysis.NumberFrom` | Ideafy/src/components/ChatbotAnalysis.tsx:222-226 | item k keeps its text and position and gets number first + k |
| `ChatbotAnalysis.NumberedSuggestions` | Ideafy/src/components/ChatbotAnalysis.tsx:222-226 | suggestions in input order, numbered 1..n without gaps |
| `ChatbotAnalysis.MockAnalysisShowsGreen` | Ideafy/src/components/ChatbotAnalysis.tsx:40-50 | any analysis of the form's shape gets green from `RatingColor` and from `ScoreColor`, and its rating in filled stars |
| `ChatbotAnalysis.ShownAnalysisIsGreen` | Ideafy/src/components/IdeaSubmissionForm.tsx:107-119 | whenever the form shows the analysis page, `RatingColor` (applied to the rating) and `ScoreColor` (never applied by the page) both give green for the analysis shown |
| `IndexPage.Next` | launchpad-feedback-hub-main/src/pages/Index.tsx:14-32 | every event keeps the gating invariant, never signs out, and only a successful sign-in signs in |
| `IndexPage.RunGated` | launchpad-feedback-hub-main/src/pages/Index.tsx:10-32 | any sequence of events from a gated state ends in a gated state |
| `IndexPage.ReachableGated` | launchpad-feedback-hub-main/src/pages/Index.tsx:10-12 | every state reachable from the start has the form or dashboard current only when signed in |
| `IndexPage.RunAuthenticated` | launchpad-feedback-hub-main/src/pages/Index.tsx:22-25 | signed in after a sequence exactly when signed in before or a sign-in succeeded in it |
| `IndexPage.LeavingHomeNeedsSignIn` | launchpad-feedback-hub-main/src/pages/Index.tsx:14-19 | from the start, leaving home requires a successful sign-in among the events |
| `IndexPage.ViewChangeSignedOut` | launchpad-feedback-hub-main/src/pages/Index.tsx:14-18 | signed out, asking for form or dashboard keeps the view and opens the dialog |
| `IndexPage.ViewChangeAllowed` | launchpad-feedback-hub-main/src/pages/Index.tsx:15-19 | going home always succeeds; signed in, any view becomes current; nothing else changes |
| `IndexPage.AuthSuccessIdempotent` | launchpad-feedback-hub-main/src/pages/Index.tsx:22-25 | sign-in success signs in and closes the dialog; applying it twice equals once |
| `IndexPage.BackGoesHome` | launchpad-feedback-hub-main/src/pages/Index.tsx:27-33 | `onBack` makes home current and changes nothing else |
| `IndexPage.GetStartedOpensDialog` | launchpad-feedback-hub-main/src/pages/Index.tsx:62 | "Get Started" only opens the dialog |
| `IndexPage.CloseAuthClosesDialog` | launchpad-feedback-hub-main/src/pages/Index.tsx:177-181 | the dialog's `onClose` only closes it |
| `IndexPage.Index.constructor` | launchpad-feedback-hub-main/src/pages/Index.tsx:10-12 | home, dialog closed, signed out |
| `IndexPage.Index.HandleViewChange` | launchpad-feedback-hub-main/src/pages/Index.tsx:14-20 | the new state is `Next` of the old for the view change; the invariant holds |
| `IndexPage.Index.HandleAuthSuccess` | launchpad-feedback-hub-main/src/pages/Index.tsx:22-25 | the new state is `Next` of the old for a successful sign-in; the invariant holds |
| `IndexPage.Index.CloseAuth` | launchpad-feedback-hub-main/src/pages/Index.tsx:179 | the new state is `Next` of the old for closing the dialog |
| `IndexPage.Index.GetStarted` | launchpad-feedback-hub-main/src/pages/Index.tsx:62 | the new state is `Next` of the old for "Get Started" |
| `IndexPage.Index.Back` | launchpad-feedback-hub-main/src/pages/Index.tsx:28 | the new state is `Next` of the old for `onBack`; the invariant holds |

## Left out

- Rendering: JSX, CSS class strings (only the colour band they select is kept), icons, and the static feature and statistics arrays of the landing page.
- Toasts, `navigator.share` and the clipboard fallback in `handleShare`, and `handleExportPDF`: browser I/O with no state of the model.
- The three-second `setTimeout`: completion is the explicit event `CompleteAnalysis`, allowed only while a scheduled analysis is pending (`pendingAnalyses`).
- `Math.random`: floating point, replaced by the integer draws.
- `new Date(...)` parsing and `toLocaleDateString`: dates are integers ordered like the timestamps.
- Unicode `toLowerCase`: only ASCII letters are folded.
- ChatbotAnalysis.DescriptionPreview: lengths and the cut at 200 count Dafny characters (Unicode scalar values), not the UTF-16 code units that `length` and `substring` count, so a description with characters outside the Basic Multilingual Plane is cut later in the model than on the page, and the page's cut may split a surrogate pair.
- The order among ideas with equal sort keys: `Array.prototype.sort` is stable, and so is the model's insertion sort, but nothing on the page relies on the order of ties, so no property about it is stated; only "permutation with no pair out of order" is claimed.
- `File` objects and the hidden file input's `click()`: a file is an opaque `Attachment`.
- The sign-in dialog's own behaviour: `AuthModal` is not part of this model; its `onSuccess` and `onClose` are events.
- The contents of the hard-coded idea list: the dashboard is modelled over any list.
- Which buttons are on screen: every event is modelled from every state, a superset of what the page offers; the invariants hold for all of them.
- Unmounting: switching views in the landing page discards the form's and the dashboard's state, and a pending analysis then completes into an unmounted component; the model keeps each component's state as its own object.
- `handleInputChange` with the key `file`: the type allows it, no caller uses it.
- ChatbotAnalysis.RatingColor: ratings and scores are modelled as integers (every caller passes one), so the yellow band "3 up to but not including 4" of fractional ratings is stated for the integer 3 only.
- ChatbotAnalysis.ScoreColor: the page defines `getScoreColor` but never calls it; the score is drawn with the fixed `gradient-text` class and a plain progress bar, so the band this function returns is not shown anywhere.
- Dashboard.ScoreColor: scores are modelled as integers, so the fractional scores between 89 and 90 are not covered.
