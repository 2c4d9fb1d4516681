# Aurelius Partners site logic in Dafny

This project models the parts of the Aurelius Partners marketing site (a React single-page
application) that contain real logic, and proves what they promise:

- **Growth Score quiz** (`GrowthScoreQuiz`). The model covers:
  - the eight-question table and the score bands;
  - the score as the sum of the recorded answers;
  - a `Quiz` class for the component's state: the cursor, the answer map, the results and
    submitted phases, and the delayed auto-advance. The advance is its own event (`FireAdvance`).
- **Blog post page** (`BlogPost`). The model covers:
  - the post lookup by slug, with a redirect for an unknown slug;
  - the related-posts selection;
  - the line-by-line renderer of the site's markdown subset, a loop with a pending-list
    buffer. It is proved equal to a reference definition (`Blocks`) that groups each
    maximal run of list lines into one list.
- **Insights page** (`Insights`). The sorted tag index, the search-and-tag filter, and the
  tag buttons.
- **Contact page** (`Contact`). The field rules, and what a submission does to the page's
  `submitted` and `error` state. This covers demo mode, a 2xx response, any other
  response, and a network failure.
- **Header** (`ScrollDirection`, `Navbar`, `Theme`). The scroll tracker, when the header
  hides, the highlighted link, the mobile menu, and the theme toggle with its stored value.
- **Document head** (`Seo`). The page title, the canonical URL, the Open Graph and Twitter
  tags, and the keywords.

Shared modules:

- `Strings` models the JavaScript string operations the code relies on: `trim`, `split`,
  `startsWith`, `endsWith`, `includes`, `join`, and the default sort order.
- `Posts` holds the post record and an order-preserving `filter`.
- `Brand` holds the configuration defaults.
- `Optional` holds the option type.

The score bands are computed in the source as a floating-point percentage compared with 75, 50
and 25. The model uses the integer tests `100 * score >= 75 * 32` and so on. The two agree on
every score from 0 to 32, because `score / 32 * 100` is exact in binary floating point.

The delayed auto-advance adds one to the cursor without a bound. `GrowthScoreQuiz.CursorOverrun`
and `GrowthScoreQuiz.CursorOverrunAfterNext` show two event orders that leave the cursor one
past the last question:

- two quick answers on the seventh question;
- an answer on the seventh question followed by Next.

The render then indexes a question that does not exist. The quiz's invariant therefore only
bounds the cursor from below.

## Model

| member | source | states |
|---|---|---|
| GrowthScoreQuiz.QuestionTable | src/components/quiz/GrowthScoreQuiz.tsx:13-94 | eight questions, each with exactly four options valued 1, 2, 3, 4 in order, and distinct ids |
| GrowthScoreQuiz.IdCount | src/components/quiz/GrowthScoreQuiz.tsx:13-94 | the set of question ids has eight elements |
| GrowthScoreQuiz.Category | src/components/quiz/GrowthScoreQuiz.tsx:96-102 | the band returned is reached by the score (percentage at least 75/50/25 of 32), and no higher band is reached |
| GrowthScoreQuiz.CategoryBoundaries | src/components/quiz/GrowthScoreQuiz.tsx:96-102 | 32 and 24 are Growth Ready, 23 and 16 Growth Potential, 15 and 8 Growth Opportunity, 7 and 0 Foundation Needed |
| GrowthScoreQuiz.CategoryMonotone | src/components/quiz/GrowthScoreQuiz.tsx:97-101 | a higher score never gives a lower band |
| GrowthScoreQuiz.Band.Label | src/components/quiz/GrowthScoreQuiz.tsx:98-101 | definition: each band's title; `BandsDistinguished` proves no two bands share one |
| GrowthScoreQuiz.Band.Color | src/components/quiz/GrowthScoreQuiz.tsx:98-101 | definition: each band's colour class; `BandsDistinguished` proves no two bands share one |
| GrowthScoreQuiz.Band.Advice | src/components/quiz/GrowthScoreQuiz.tsx:98-101 | definition: each band's advice text, copied from the source |
| GrowthScoreQuiz.BandsDistinguished | src/components/quiz/GrowthScoreQuiz.tsx:98-101 | two different bands have different titles and different colour classes |
| GrowthScoreQuiz.MapSumRemove | src/components/quiz/GrowthScoreQuiz.tsx:112 | the sum of the answer values can take out any entry first, so it does not depend on key order |
| GrowthScoreQuiz.MapSumUpdate | src/components/quiz/GrowthScoreQuiz.tsx:117 | recording a value under an id replaces that id's old value in the score and changes nothing else |
| GrowthScoreQuiz.MapSumBounds | src/components/quiz/GrowthScoreQuiz.tsx:112 | values from 1 to 4 give a sum between the number of answers and four times it |
| GrowthScoreQuiz.TotalScore | src/components/quiz/GrowthScoreQuiz.tsx:112 | the reduce over the recorded values returns their sum, also for a partial set of answers |
| GrowthScoreQuiz.AllAnswered | src/components/quiz/GrowthScoreQuiz.tsx:114 | definition: the count test, as many answers as questions; `AllAnsweredMeansEveryQuestion` gives its meaning |
| GrowthScoreQuiz.AllAnsweredMeansEveryQuestion | src/components/quiz/GrowthScoreQuiz.tsx:114 | with keys only from question ids, the count test holds iff every question has an answer |
| GrowthScoreQuiz.CompleteScoreRange | src/components/quiz/GrowthScoreQuiz.tsx:112-114 | a complete set of answers scores between 8 and 32 |
| GrowthScoreQuiz.AnswersFor | src/components/quiz/GrowthScoreQuiz.tsx:117 | answering the first n questions in turn records exactly their ids |
| GrowthScoreQuiz.AnswersForScore | src/components/quiz/GrowthScoreQuiz.tsx:112 | answering in turn scores the sum of the chosen values, with one entry per answer |
| GrowthScoreQuiz.ExampleScore | src/components/quiz/GrowthScoreQuiz.tsx:96-114 | answers 2,3,1,4,2,3,1,2 complete the quiz with 18 points, in the Growth Potential band |
| GrowthScoreQuiz.Quiz.constructor | src/components/quiz/GrowthScoreQuiz.tsx:105-109 | first question, no answers, empty e-mail, answering phase |
| GrowthScoreQuiz.Quiz.Answer | src/components/quiz/GrowthScoreQuiz.tsx:116-121 | the chosen value is recorded under the current question's id, replacing any earlier one; one advance is scheduled unless on the last question; nothing else changes |
| GrowthScoreQuiz.Quiz.FireAdvance | src/components/quiz/GrowthScoreQuiz.tsx:119 | the scheduled advance adds one to the cursor, unclamped |
| GrowthScoreQuiz.Quiz.Previous | src/components/quiz/GrowthScoreQuiz.tsx:193 | the cursor becomes max(0, i-1), a no-op on the first question |
| GrowthScoreQuiz.Quiz.Next | src/components/quiz/GrowthScoreQuiz.tsx:208-214 | offered only while unanswered questions remain; the cursor becomes min(7, i+1), a no-op on the last question |
| GrowthScoreQuiz.Quiz.SeeScore | src/components/quiz/GrowthScoreQuiz.tsx:200-206 | results are shown only once every question is answered, and the answers stay |
| GrowthScoreQuiz.Quiz.SetEmail | src/components/quiz/GrowthScoreQuiz.tsx:269 | typing sets the e-mail and nothing else |
| GrowthScoreQuiz.Quiz.SubmitEmail | src/components/quiz/GrowthScoreQuiz.tsx:123-127 | an accepted e-mail form only sets `submitted`; no state returns to answering |
| GrowthScoreQuiz.CursorOverrun | src/components/quiz/GrowthScoreQuiz.tsx:118-119 | two quick answers on the seventh question leave the cursor at 8, past the last question |
| GrowthScoreQuiz.CursorOverrunAfterNext | src/components/quiz/GrowthScoreQuiz.tsx:209 | an answer on the seventh question and then Next also leave the cursor at 8 |
| Strings.Trim | src/pages/BlogPost.tsx:41 | the result is the slice of the line between leading and trailing white space, neither of its ends is white space, and only white space is removed |
| Strings.TrimEmpty | src/pages/BlogPost.tsx:75 | a trimmed line is empty iff the line is all white space |
| Strings.Split | src/pages/BlogPost.tsx:23 | at least one piece, and no piece holds the separator |
| Strings.SplitJoin | src/pages/BlogPost.tsx:23 | joining the pieces with the separator gives back the content, so no line is lost |
| Strings.Contains | src/pages/Insights.tsx:28 | definition: `includes`, the needle starts at some offset; `ContainsAt` and `ContainsOnlyAt` prove both directions |
| Strings.ContainsAt | src/pages/Insights.tsx:28 | an occurrence at a known offset is found by `includes` |
| Strings.ContainsOnlyAt | src/pages/Insights.tsx:28 | `includes` succeeds only where the needle occurs |
| Strings.JoinLength | src/components/seo/SEO.tsx:59 | a join has the parts' total length plus one separator between each two parts |
| Strings.JoinSnoc | src/components/seo/SEO.tsx:59 | joining one more part appends a separator and the part |
| Strings.Join | src/components/seo/SEO.tsx:59 | definition: the parts with the separator between each two; its layout is proved by `JoinLength`, `JoinPlacesParts` and `JoinPlacesSeparators` |
| Strings.JoinPlacesParts | src/components/seo/SEO.tsx:59 | part i of a join starts after the i parts before it and i separators |
| Strings.JoinPlacesSeparators | src/components/seo/SEO.tsx:59 | a separator follows every part but the last |
| Strings.BelowIrreflexive | src/pages/Insights.tsx:21 | the sort order puts no string before itself |
| Strings.BelowTransitive | src/pages/Insights.tsx:21 | the sort order is transitive |
| Strings.BelowTotal | src/pages/Insights.tsx:21 | of two different strings one sorts first |
| Strings.BelowAsymmetric | src/pages/Insights.tsx:21 | two strings never each sort before the other |
| Strings.Below | src/pages/Insights.tsx:21 | definition: the default sort order, code point by code point with a proper prefix first; the four lemmas above make it a strict total order |
| Posts.Filter | src/pages/Insights.tsx:25-32 | exactly the posts that pass are kept, in their original order, each as often as in the input; a post that fails is dropped every time |
| Posts.FilterAll | src/pages/Insights.tsx:25-32 | when every post passes, the filter returns all of them |
| Posts.FilterFusion | src/pages/BlogPost.tsx:16-19 | filtering by one test and then by another keeps what one filter by both tests keeps |
| Posts.SubsequenceTransitive | src/pages/BlogPost.tsx:16-19 | a subsequence of a subsequence is a subsequence |
| Posts.PrefixIsSubsequence | src/pages/BlogPost.tsx:19 | a slice from the start keeps the order |
| BlogPost.CloseAt | src/pages/BlogPost.tsx:66 | the lazy span ends at the first `**`, and only when no line terminator comes before it; when it finds none, every `**` has a line terminator before it |
| BlogPost.BoldAt | src/pages/BlogPost.tsx:66 | a bold span found at the start of the text is `**`, its inner text, `**` |
| BlogPost.BoldAtSpan | src/pages/BlogPost.tsx:66 | the span found is the shortest: its inner text holds no line terminator and no `**`; none is found only when the text does not open with `**` or every later `**` has a line terminator before it |
| BlogPost.Pieces | src/pages/BlogPost.tsx:80 | the split at bold spans has an odd number of parts |
| BlogPost.PiecesShape | src/pages/BlogPost.tsx:80 | every odd-position part is the inner text of a span, free of line terminators and `**`; no even-position part holds a complete span |
| BlogPost.Unbold | src/pages/BlogPost.tsx:66 | definition: the parts of the split, with the spans' stars dropped, joined; `PiecesRejoin` and `PiecesShape` describe the parts |
| BlogPost.PiecesRejoin | src/pages/BlogPost.tsx:80-90 | wrapping the odd-position parts in `**` and joining gives back the trimmed line |
| BlogPost.DropStars | src/pages/BlogPost.tsx:61 | removing every `**` never lengthens the line and keeps a leading non-star character |
| BlogPost.DropStarsLeavesNoPair | src/pages/BlogPost.tsx:61 | a bold line's text has no `**` left |
| BlogPost.DropStarsKeepsText | src/pages/BlogPost.tsx:61 | only star characters are removed from a bold line |
| BlogPost.DropStarsNoPair | src/pages/BlogPost.tsx:61 | a text without `**` is left as it is |
| BlogPost.StarRun | src/pages/BlogPost.tsx:61 | a run of k stars leaves k mod 2 stars, whatever follows it |
| BlogPost.Kind | src/pages/BlogPost.tsx:43-94 | definition: the tests in the order `## `, `### `, bold, `- `, italic, blank, paragraph; `KindOrder` and `ClassifyText` state what each outcome means |
| BlogPost.KindOrder | src/pages/BlogPost.tsx:43-94 | each kind holds exactly when its marker test holds and no earlier test did: a heading iff the line starts with its marker, a bold line iff it starts and ends with `**`, a list item iff it starts with `- `, an italic line iff it starts and ends with `*` but is not bold, blank iff empty, and a paragraph otherwise |
| BlogPost.ClassifyText | src/pages/BlogPost.tsx:43-94 | each kind of trimmed line keeps its text: a heading is the line after its marker, a bold line has no `**` left and has the same non-star text as the line, a list item is the line after `- ` with bold unwrapped, an italic line loses one star on each side, only an empty line is blank, and a paragraph's parts rejoin to the line and separate its spans out |
| BlogPost.Classify | src/pages/BlogPost.tsx:41-94 | the line is trimmed and then classified, keeping its text as above |
| BlogPost.Classified | src/pages/BlogPost.tsx:40-41 | one classified line per input line, in order |
| BlogPost.Lines | src/pages/BlogPost.tsx:23 | definition: the trimmed content split at newlines; `SplitJoin` proves that no line is lost |
| BlogPost.Flush | src/pages/BlogPost.tsx:27-38 | definition: the pending items as one list, or nothing when there are none; `ContinueFlushes` and `ContinueEnd` place it in the output |
| BlogPost.ItemRun | src/pages/BlogPost.tsx:64-67 | the run of list lines at the start is maximal |
| BlogPost.ContinueRun | src/pages/BlogPost.tsx:64-67 | a pending list takes in the whole run of list lines that follows it and becomes one list |
| BlogPost.ContinueItem | src/pages/BlogPost.tsx:64-67 | a list line extends the pending list |
| BlogPost.ContinueFlushes | src/pages/BlogPost.tsx:27-38 | any other line first flushes the pending list, then emits its own block, or nothing if blank |
| BlogPost.ContinueEnd | src/pages/BlogPost.tsx:97 | the final flush emits the pending list, so no item is lost |
| BlogPost.RenderLines | src/pages/BlogPost.tsx:40-97 | the loop with its list buffer emits exactly the reference block sequence |
| BlogPost.RenderContent | src/pages/BlogPost.tsx:22-99 | rendering the content gives the reference blocks of its trimmed, split and classified lines |
| BlogPost.ItemTextsAppend | src/pages/BlogPost.tsx:64-67 | the list texts of two stretches of lines are the texts of each, in order |
| BlogPost.OtherBlocksAppend | src/pages/BlogPost.tsx:43-94 | the other blocks of two stretches of lines are those of each, in order |
| BlogPost.ItemTextsOfRun | src/pages/BlogPost.tsx:64-67 | a run of list lines gives one item per line and no other block |
| BlogPost.ListedItemsAppend | src/pages/BlogPost.tsx:22-99 | list items and non-list blocks of concatenated output are those of the parts |
| BlogPost.BlocksKeepEveryLine | src/pages/BlogPost.tsx:40-97 | every list line becomes exactly one list item in order; every other non-blank line exactly one block in order; no list is empty |
| BlogPost.FindPost | src/pages/BlogPost.tsx:10 | the first post with the slug, or none iff no post has it |
| BlogPost.RelatedPosts | src/pages/BlogPost.tsx:16-19 | the first two posts, in the original order, among those with another slug and a shared tag; all of them when fewer than two |
| BlogPost.BlogPage | src/pages/BlogPost.tsx:10-14 | an unknown slug redirects to `/insights` and renders no post; otherwise the post with that slug |
| Insights.SortedNoDuplicates | src/pages/Insights.tsx:19-21 | a strictly sorted tag list has no duplicates |
| Insights.InsertSorted | src/pages/Insights.tsx:21 | placing a tag into a sorted list keeps it sorted, and adds just that tag |
| Insights.SortStrings | src/pages/Insights.tsx:21 | sorting gives the same strings, strictly ascending |
| Insights.SortedUnique | src/pages/Insights.tsx:18-22 | two sorted lists with the same tags are equal, so the index does not depend on the order tags were met |
| Insights.TaggedSnoc | src/pages/Insights.tsx:20 | one more post adds exactly its tags |
| Insights.AllTags | src/pages/Insights.tsx:18-22 | the index is strictly sorted and holds a tag iff some post carries it |
| Insights.MatchesSearch | src/pages/Insights.tsx:26-29 | definition: an empty query, or the lower-cased query inside the lower-cased title or description; `SearchFindsOccurrence` proves what that means |
| Insights.MatchesTag | src/pages/Insights.tsx:30 | definition: no tag selected (an empty tag counts as none), or the post carries the tag; `FilteredPosts` uses it |
| Insights.FilteredPosts | src/pages/Insights.tsx:24-33 | a post is listed iff it matches the search and the tag, in the original order |
| Insights.EverythingUnfiltered | src/pages/Insights.tsx:26-30 | an empty query and no tag list every post, in order |
| Insights.SearchIgnoresTagsAndContent | src/pages/Insights.tsx:27-29 | only title and description are searched |
| Insights.SearchFindsOccurrence | src/pages/Insights.tsx:27-29 | a non-empty query matches iff its lower-cased form occurs in the lower-cased title or description |
| Insights.ClickedTag | src/pages/Insights.tsx:89 | clicking the active tag clears it; clicking another selects it |
| Insights.ClickTwice | src/pages/Insights.tsx:89 | two clicks on one tag restore it if it was active, and clear the filter otherwise |
| Insights.InsightsPage.constructor | src/pages/Insights.tsx:14-15 | empty query and no active tag at first |
| Insights.InsightsPage.SetQuery | src/pages/Insights.tsx:70 | typing sets the query and keeps the tag |
| Insights.InsightsPage.ClickAll | src/pages/Insights.tsx:77 | "All" clears the tag and keeps the query |
| Insights.InsightsPage.ClickTag | src/pages/Insights.tsx:89 | a tag button toggles that tag and keeps the query |
| Contact.EveryFieldListed | src/pages/Contact.tsx:21-29 | the schema lists every field |
| Contact.Fails | src/pages/Contact.tsx:21-29 | definition: the e-mail fails its format check, any other field is shorter than its minimum; `ValidExactly` spells out the minimums |
| Contact.IssuesOf | src/pages/Contact.tsx:21-29 | an issue is reported for a listed field iff it fails, with that field's message |
| Contact.Validate | src/pages/Contact.tsx:21-29 | the issues are exactly those of the failing fields, each with its message |
| Contact.ValidExactly | src/pages/Contact.tsx:21-29 | a form passes iff name has at least 2 characters, e-mail is well formed, company, role, size and interest are not empty, and message has at least 10 |
| Contact.DefaultEndpointIsDemo | src/config/brand.ts:10 | without a configured endpoint the placeholder form id is present, so the page runs in demo mode |
| Contact.IsDemo | src/pages/Contact.tsx:50 | definition: the endpoint contains the placeholder form id; `Submit` then submits without a request |
| Contact.IsOk | src/pages/Contact.tsx:61 | definition: a response with a status from 200 to 299; `Submit` submits only then |
| Contact.ContactPage.constructor | src/pages/Contact.tsx:34-35 | not submitted and no error at first |
| Contact.ContactPage.Submit | src/pages/Contact.tsx:46-66 | an invalid form changes nothing; otherwise the error is cleared, demo mode submits without a request, a 2xx response submits, anything else shows the fixed failure message |
| Contact.RetryAfterFailure | src/pages/Contact.tsx:46-66 | after a failed attempt a retry can still succeed; submitted and the empty error always go together |
| Brand.Setting | src/config/brand.ts:10 | an unset or empty environment value gives the default |
| ScrollDirection.NextDirection | src/hooks/useScrollDirection.ts:12-16 | down iff moved down past 80, or was down and did not move up; up after any move up |
| ScrollDirection.ScrollTracker.constructor | src/hooks/useScrollDirection.ts:4-6 | up, at the top, position 0 |
| ScrollDirection.ScrollTracker.HandleScroll | src/hooks/useScrollDirection.ts:9-18 | `atTop` is `current < 10`, the direction changes as above, and the position is remembered; down only after a position past 80 |
| ScrollDirection.NeverDownNearTop | src/hooks/useScrollDirection.ts:12-13 | at a position of 80 or less the direction is up |
| ScrollDirection.SmallMovesKeepDirection | src/hooks/useScrollDirection.ts:14-16 | holding still, or moving down within the first 80 pixels, keeps the direction |
| ScrollDirection.DownThenUp | src/hooks/useScrollDirection.ts:9-18 | a scroll down past 80 and back up ends pointing up at the second position |
| Navbar.IsHidden | src/components/layout/Navbar.tsx:23 | definition: the header hides when scrolling down away from the top with the menu closed; the two lemmas below give its meaning |
| Navbar.HiddenWhenScrollingDown | src/components/layout/Navbar.tsx:23 | with the tracker's invariant, the header hides iff the direction is down and the menu is closed |
| Navbar.OpenMenuShowsHeader | src/components/layout/Navbar.tsx:23 | an open mobile menu never hides the header |
| Navbar.DistinctTargets | src/components/layout/Navbar.tsx:9-15 | no two navigation links share a target |
| Navbar.FindLink | src/components/layout/Navbar.tsx:59 | the link found targets the path; none found means no link does |
| Navbar.IsActive | src/components/layout/Navbar.tsx:59 | definition: the link's target equals the path; `ActiveLink` proves at most one link is highlighted |
| Navbar.ActiveLink | src/components/layout/Navbar.tsx:59 | at most one link is highlighted, and it is the one whose target equals the path exactly |
| Navbar.ThemeLabel | src/components/layout/Navbar.tsx:83 | the button names the theme a press switches to |
| Navbar.ThemeIcon | src/components/layout/Navbar.tsx:85 | the sun is shown exactly when the label offers the light theme, so icon and label always agree |
| Navbar.Header.constructor | src/components/layout/Navbar.tsx:18 | the mobile menu starts closed |
| Navbar.Header.ToggleMenu | src/components/layout/Navbar.tsx:97 | the menu button flips `mobileOpen` |
| Navbar.Header.FollowMobileLink | src/components/layout/Navbar.tsx:129 | following a mobile link (or the call to action) closes the menu |
| Theme.InitialTheme | src/hooks/useTheme.ts:6-10 | dark without a window; otherwise the stored value when present and not empty, unchecked, else dark |
| Theme.Toggle | src/hooks/useTheme.ts:18-20 | dark becomes light, anything else becomes dark |
| Theme.ToggleInvolution | src/hooks/useTheme.ts:18-20 | two toggles restore dark or light; any other value ends as light |
| Theme.IsDark | src/hooks/useTheme.ts:22 | definition: the theme is dark; `IsDarkToggle` and `Navbar.ThemeIcon` give its use |
| Theme.IsDarkToggle | src/hooks/useTheme.ts:18-22 | a toggle always flips whether the theme is dark |
| Theme.ThemeState.constructor | src/hooks/useTheme.ts:6-16 | the initial theme is read and written back to storage |
| Theme.ThemeState.ToggleTheme | src/hooks/useTheme.ts:12-20 | the theme toggles and storage holds the new theme |
| Theme.ToggleTwice | src/hooks/useTheme.ts:18-20 | from a stored dark or light, two toggles return to it |
| Seo.PageTitle | src/components/seo/SEO.tsx:19-21 | a non-empty title is followed by a bar separator and the brand; otherwise the brand, the separator and the fixed tagline |
| Seo.TitleNamesBrand | src/components/seo/SEO.tsx:19-21 | every page title contains the brand name |
| Seo.Url | src/components/seo/SEO.tsx:22 | the site URL followed by the path; the site URL itself by default |
| Seo.ImageUrl | src/components/seo/SEO.tsx:67 | the site URL followed by the image, `/og.png` by default |
| Seo.OgType | src/components/seo/SEO.tsx:63 | `article` iff the page is an article, else `website` |
| Seo.KeywordsContent | src/components/seo/SEO.tsx:59 | the keywords joined by `, `: their total length plus two per separator, each keyword in order at its offset, and `, ` between each two |
| Seo.SeoHead | src/components/seo/SEO.tsx:12-74 | page, Open Graph and Twitter titles agree; descriptions agree; canonical and og:url agree; og and Twitter images agree |
| Seo.DefaultHead | src/components/seo/SEO.tsx:12-22 | a page with no properties gets the brand title, the site URL, `website` and `/og.png` |
| Seo.DefaultSite | src/config/brand.ts:1-14 | the default site uses the default name and URL |
| Seo.DefaultKeywordsLength | src/config/brand.ts:30-41 | the default keywords tag holds the ten keywords and nine separators |

## Left out

- Rendering, class strings, animation and the React element tree. Blocks are a datatype.
- Timers. Each delayed effect is an event the caller fires: the quiz's 300 ms advance is
  `FireAdvance`. The contact page's one-second demo delay is left out, as is any
  interleaving of a submission with other events while it awaits.
- Network and storage I/O. These are left out:
  - the contact `fetch` request and its JSON body; its outcome is the `Response` parameter;
  - the quiz e-mail, which the source never sends anywhere;
  - `localStorage` and `document.body.classList`. The stored theme is a field written with
    every theme change.
- The `window` scroll listener's registration and removal. Each position `window.scrollY`
  reports is an argument of `HandleScroll`, a real number, since the browser reports
  fractional pixels on zoomed pages.
- GrowthScoreQuiz.Quiz.Answer requires the cursor to be on a question. The render reads
  `questions[currentQ]` and fails past the end, so no button exists there.
- GrowthScoreQuiz.Category: the floating-point percentage is replaced by integer tests. They
  agree for every score up to 32 (see above).
- The quiz progress percentage, the progress bar width and the result ring's degrees. These
  are floating-point display values.
- Contact.Validate: the e-mail format check and the browser's `required` e-mail check in the
  quiz are boolean parameters. React Hook Form's `isSubmitting` flag is not modelled.
- Strings: lengths, `trim`, `includes` and the sort order work on Unicode code points. The
  source works on UTF-16 code units. The two differ only outside the Basic Multilingual
  Plane, for lengths and order.
- Insights.FilteredPosts: `toLowerCase` is an abstract function parameter (`lower`).
- Insights.SortStrings is specified by its result (the same strings, strictly ascending, each
  once), not by the engine's sort algorithm. For a set of distinct tags the result is unique
  (`Insights.SortedUnique`).
- The structured-data block of the head is left out. It is constant apart from the brand
  name, the description and the site URL.
- Static pages, the post texts and the routing are left out. The post list is a parameter.
