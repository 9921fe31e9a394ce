# Nazma Charitable Trust website: a verified model of its logic

The website is a single page of static sections over a hosted PostgreSQL
database that it reaches through the Supabase client. The little logic it
has sits between that client and the page, and this project models that
logic in Dafny and proves what it promises:

- **The client binding** (`src/lib/supabase.ts`). The start-up check throws
  before any client exists unless both the endpoint URL and the anonymous key
  are non-empty. `handleSupabaseError` is a case-sensitive substring
  classifier with a fixed priority: "violates", then "foreign key", then
  "permission". If none of them occurs, the message itself is shown. A missing
  or empty message gets the generic sentence.
- **The data hooks** (`src/hooks/api-hooks.ts`). Each hook receives the
  client's answer as a value, which is either the data or an error. The model
  covers what the hooks decide from that answer:
  - the normalised message is thrown, or the data is returned unchanged;
  - the unique-violation code `23505` gets its own sentence when subscribing
    to the newsletter;
  - the not-found code `PGRST116` means "no report" for the latest financial
    report;
  - the site settings are folded into a key-value object, with the later row
    winning;
  - a blog post is read first, and only then is a view increment sent;
  - the `enabled` gates stop the slug queries on an empty slug and stop
    search for terms of two characters or fewer.

  Each hook's request is also modelled as what it asks of the table: its
  filters, its order and its limit, over an in-memory sequence of rows.
- **The navigation bar** (`src/components/Navbar.tsx`). This is a class with
  five pieces of state: the scroll flag, the mobile-menu flag, the theme flag,
  the theme stored in local storage, and whether the page carries the `dark`
  class. Its handlers are methods. Each method is tied to a transition
  function on a state value, and the lemmas speak about those functions:
  - the theme is taken from storage first, then from the system preference;
  - the toggle negates the theme and writes it through;
  - the scroll threshold is strict;
  - the menu opens and closes as the buttons say.

Files: `wrappers.dfy` (Option, and Outcome for a call that returns or
throws), `supabase.dfy`, `types.dfy` (row shapes), `rows.dfy` (filter,
stable insertion sort by a lexicographic key, limit), `queries.dfy`,
`api_hooks.dfy`, `navbar.dfy`.

Inputs that the code takes from the outside world become parameters:

- the environment variables;
- the client's answers;
- the current time, as an ISO string;
- the value stored in local storage;
- the `prefers-color-scheme` media query;
- `window.scrollY`;
- whether `document.querySelector` found the target section.

The increment of a blog post's view count is awaited before the post is
returned. It is not fire-and-forget: the hook sends it after the read and
before it returns. Its answer is ignored, so the returned post never depends
on it.

## Model

| member | source | states |
|---|---|---|
| `Supabase.EnvValue` | src/lib/supabase.ts:8-9 | an absent variable reads as the empty string; a present one is kept as it is |
| `Supabase.CreateClient` | src/lib/supabase.ts:8-29 | a client is built iff both URL and key are present and non-empty; otherwise the missing-variables error is thrown; the client carries exactly the given URL and key, session persistence, token refresh, schema `public` and the application-name header |
| `Supabase.Includes` | src/lib/supabase.ts:35 | `includes` holds iff the phrase occurs at some index of the message, comparing characters exactly (so matching is case-sensitive) |
| `Supabase.HandleSupabaseError` | src/lib/supabase.ts:32-47 | the reply is never empty; with no error or an empty message it is the generic sentence; otherwise it is one of the three fixed sentences or the message itself |
| `Supabase.FirstMatch` | src/lib/supabase.ts:34-43 | the reply of the first rule whose phrase occurs, and none exactly when no phrase occurs: an independent first-match reading of a priority table |
| `Supabase.HandleSupabaseErrorFollowsRules` | src/lib/supabase.ts:32-47 | the normaliser equals first-match over the table ("violates", "foreign key", "permission"), falling back to the message, or to the generic sentence when there is no message |
| `Supabase.ViolatesWins` | src/lib/supabase.ts:35-37 | any message containing "violates" gives the duplicate-entry sentence, whatever else it contains |
| `Supabase.ForeignKeyBelowViolates` | src/lib/supabase.ts:35-40 | a message containing "foreign key" gives the invalid-reference sentence only when "violates" is absent, and the duplicate-entry sentence otherwise |
| `Supabase.PermissionLast` | src/lib/supabase.ts:35-43 | a message containing "permission" gives the permission sentence only when neither earlier phrase occurs |
| `Supabase.UnknownMessagePassesThrough` | src/lib/supabase.ts:44 | a non-empty message with none of the three phrases is returned verbatim |
| `Supabase.ForeignKeyViolationReadsAsDuplicate` | src/lib/supabase.ts:35-40 | "violates foreign key constraint" yields the duplicate-entry sentence, not the invalid-reference one |
| `Supabase.MatchingIsCaseSensitive` | src/lib/supabase.ts:35-43 | "Violates" and "Permission" are not recognised and are shown verbatim |
| `Rows.Keep` | src/hooks/api-hooks.ts:31-34 | the `.eq` filters: the result holds exactly the rows that pass, each as often as in the table |
| `Rows.SortBy` | src/hooks/api-hooks.ts:35 | the `.order`: the result is ordered by the key, ascending or descending, and is a permutation of its input |
| `Rows.Limit` | src/hooks/api-hooks.ts:106 | `.limit(n)`: the first `min(n, length)` rows |
| `Rows.LimitKeepsLeading` | src/hooks/api-hooks.ts:105-106 | cutting an ordered list keeps it ordered, keeps a sub-multiset, and no row cut off ranks before a row kept |
| `Queries.Single` | src/hooks/api-hooks.ts:159-165 | `.single()` answers a row iff exactly one row matched, and otherwise the not-found code |
| `Queries.ProgramCategoriesQuery` | src/hooks/api-hooks.ts:31-35 | exactly the active categories, in ascending display order |
| `Queries.ProgramsQuery` | src/hooks/api-hooks.ts:51-62 | exactly the public programs, and only those of the category when a non-empty id is given, in display order |
| `Queries.ProgramQuery` | src/hooks/api-hooks.ts:76-84 | a program is returned iff exactly one public program, held once in the table, has the slug; that program is the one returned; otherwise the answer is the not-found code |
| `Queries.FeaturedProgramsQuery` | src/hooks/api-hooks.ts:97-106 | at most three programs, as many as there are (up to three) featured public ones, all featured and public and no row more often than the table holds it, in display order, and no featured public program left out ranks before one returned |
| `Queries.TrusteesQuery` | src/hooks/api-hooks.ts:122-127 | exactly the public, active trustees, in display order |
| `Queries.FinancialReportsQuery` | src/hooks/api-hooks.ts:143-147 | exactly the published reports, latest fiscal year first |
| `Queries.LatestFinancialReportQuery` | src/hooks/api-hooks.ts:159-165 | not-found iff no report is published; otherwise a published report whose fiscal year no published report exceeds |
| `Queries.TestimonialsQuery` | src/hooks/api-hooks.ts:185-194 | exactly the approved public testimonials, in display order |
| `Queries.BlogPostsQuery` | src/hooks/api-hooks.ts:210-219 | exactly the published posts dated no later than now, newest first |
| `Queries.BlogPostQuery` | src/hooks/api-hooks.ts:231-240 | a post is returned iff exactly one published post, held once in the table, has the slug; that post is the one returned; otherwise the answer is the not-found code |
| `Queries.SiteSettingsQuery` | src/hooks/api-hooks.ts:261-264 | exactly the public settings |
| `Queries.UnsubscribeUpdate` | src/hooks/api-hooks.ts:362-367 | every row with the e-mail becomes unsubscribed as of now, keeping its id and e-mail; every other row is unchanged |
| `Queries.UnsubscribeIdempotent` | src/hooks/api-hooks.ts:362-367 | unsubscribing twice at the same instant is unsubscribing once |
| `Queries.OnlyActiveCategoriesListed` | src/hooks/api-hooks.ts:27-41 | of an active category A and an inactive category B, the categories hook lists exactly `[A]` |
| `ApiHooks.Settle` | src/hooks/api-hooks.ts:37-38 | an error answer throws exactly the normalised message, which is never empty; a data answer is returned unchanged. Every plain read, insert and update does this, at lines 66-67, 86-87, 108-109, 129-130, 149-150, 196-197, 221-222, 294-295, 318-319, 369-370, 394-395, 417-418, 429-430 and 446-447 |
| `ApiHooks.LatestFinancialReport` | src/hooks/api-hooks.ts:167-172 | the not-found code gives "no report" without an error; any other error throws the normalised message; a row is returned as it is |
| `ApiHooks.LatestReportOfTable` | src/hooks/api-hooks.ts:155-175 | end to end, the hook never throws for a table: it answers no report iff none is published, and otherwise a published report of the latest fiscal year |
| `ApiHooks.MissingProgramThrows` | src/hooks/api-hooks.ts:84-86 | the single-program hook, unlike the latest-report hook, throws when no public program has the slug |
| `ApiHooks.SubscribeNewsletter` | src/hooks/api-hooks.ts:342-349 | code 23505 throws exactly the already-subscribed sentence; any other error throws what the generic handling throws; a row is returned unchanged |
| `ApiHooks.DuplicateSubscriptionMessage` | src/hooks/api-hooks.ts:342-348 | for a unique violation, subscribing shows the already-subscribed sentence where a plain insert would show the generic duplicate-entry one |
| `ApiHooks.SettingValue` | src/hooks/api-hooks.ts:271 | a missing or empty value is stored as the empty string; any other value is kept |
| `ApiHooks.SettingsMap` | src/hooks/api-hooks.ts:269-272 | the object's keys are exactly the rows' setting keys |
| `ApiHooks.SettingsLastWins` | src/hooks/api-hooks.ts:270-272 | each key holds the value of the last row that carries it |
| `ApiHooks.MissingSettingIsEmpty` | src/hooks/api-hooks.ts:271 | a key whose last row has no value, or an empty one, maps to the empty string |
| `ApiHooks.SiteSettings` | src/hooks/api-hooks.ts:260-275 | an error throws the normalised message; otherwise the loop builds exactly the fold of the rows |
| `ApiHooks.DateArgument` | src/hooks/api-hooks.ts:412-415 | `x \|\| null`: a missing or empty date is sent as null, any other date as given |
| `ApiHooks.FetchProgram` | src/hooks/api-hooks.ts:72-90 | an empty slug sends nothing and does not run; otherwise one read is sent and its answer is settled |
| `ApiHooks.FetchBlogPost` | src/hooks/api-hooks.ts:227-250 | an empty slug sends nothing; a failed read throws the normalised message and sends no increment; a successful read is followed by exactly one increment for the post's id, and the post is returned whatever the increment answered |
| `ApiHooks.SearchPrograms` | src/hooks/api-hooks.ts:439-450 | a term of length 2 or less sends nothing and does not run; a longer term sends one search call with the term, and its answer is settled |
| `ApiHooks.FetchDonationStats` | src/hooks/api-hooks.ts:407-420 | one call whose dates have passed through the null mapping, with its answer settled |
| `ApiHooks.FetchProgramImpact` | src/hooks/api-hooks.ts:423-432 | one call with no arguments, with its answer settled |
| `Navigation.InitialTheme` | src/components/Navbar.tsx:23-33 | the page starts dark iff 'dark' is stored, or nothing (or the empty string) is stored and the system prefers dark; the class is added when dark and never removed |
| `Navigation.StoredThemeOverridesSystem` | src/components/Navbar.tsx:27 | any other non-empty stored word, 'light' included, forces light even when the system prefers dark |
| `Navigation.ToggleWritesTheme` | src/components/Navbar.tsx:43-54 | the toggle negates the theme; the class is present and 'dark' stored iff the new theme is dark, and otherwise 'light' is stored; scroll and menu are untouched |
| `Navigation.ToggleTwice` | src/components/Navbar.tsx:43-54 | two toggles restore the theme and leave the class matching it; from a state already written through they restore everything |
| `Navigation.ToggledThemeSurvivesReload` | src/components/Navbar.tsx:25-53 | after a toggle, the stored word makes the next mount choose the same theme whatever the system prefers |
| `Navigation.ScrollThresholdIsStrict` | src/components/Navbar.tsx:36-38 | the bar is scrolled iff scrollY > 20, so exactly 20 is not; nothing else changes |
| `Navigation.ScrollToClosesMenu` | src/components/Navbar.tsx:56-62 | a found section closes the menu; a missing one changes nothing |
| `Navigation.MenuControls` | src/components/Navbar.tsx:131-145 | the menu button flips the menu (twice is nothing); the backdrop always closes it |
| `Navigation.Navbar.constructor` | src/components/Navbar.tsx:19-21 | all three flags start false, over the browser's stored theme and class |
| `Navigation.Navbar.InitTheme` | src/components/Navbar.tsx:23-33 | the new state is the mount transition of the old one |
| `Navigation.Navbar.ToggleTheme` | src/components/Navbar.tsx:43-54 | the new state is the toggle transition of the old one |
| `Navigation.Navbar.HandleScroll` | src/components/Navbar.tsx:35-41 | the new state is the scroll transition of the old one |
| `Navigation.Navbar.ScrollToSection` | src/components/Navbar.tsx:56-62 | the new state is the jump transition of the old one |
| `Navigation.Navbar.ToggleMobileMenu` | src/components/Navbar.tsx:131-135 | the new state has the menu flipped and nothing else changed |
| `Navigation.Navbar.CloseMobileMenu` | src/components/Navbar.tsx:140-145 | the new state has the menu closed and nothing else changed |

## Left out

- The Supabase client itself is not modelled: `createClient`, HTTP, and the refreshing of auth sessions. Each answer is a parameter, either the data or an error, never both.
- React Query is not modelled: caching, query keys, deduplication, refetching, its default retries of a failed `queryFn`, and the `invalidateQueries` calls in each mutation's `onSuccess`. Only a hook's `enabled` flag is kept, as "ran" or "disabled". `ApiHooks.FetchProgram`, `ApiHooks.FetchBlogPost` and `ApiHooks.SearchPrograms` model one run of `queryFn`. Because of retries, the hook as a whole may send a failing read several times, and a later successful retry then sends one increment.
- The server-side procedures (`get_donation_stats`, `get_program_impact`, `search_programs`, `increment_blog_view_count`) are not modelled. Their logic lives in the database, so only the call and its arguments appear.
- Two concurrent view increments can race. That is concurrency owned by the backend and is not modelled.
- `new Date().toISOString()` is not modelled. It is the parameter `now`.
- Rendering, CSS classes and the DOM effects are left out: JSX, `scrollIntoView`, and registering or removing the scroll listener. Only "the target section exists" is kept, as an input.
- The static sections are not modelled: `About`, `Hero`, `Finance`, `Objectives`, `Programs`, `Governance`, `Footer`, `GetInvolved` and the index page. They hold fixed copy and layout, plus a dialog flag.
- Rows keep their id and only the columns that some filter, order, update or hook decision reads. Descriptive columns (titles, names, texts, report and setting types, status, objective type, view count) and their enums are not modelled. Embedded relations (`category:program_categories(*)` and the like) are not modelled, and neither are the form-input types, because the inserted row is simply what the backend answers.
- Queries.Single: only the code `PGRST116` is relied on. The wording of the not-found message belongs to the backend and is a stand-in here. The `.single()` on inserts and updates is seen only through the answer they return.
- Rows.SortBy: text columns are ordered by character code, like the database's "C" collation. A database configured with another collation may order non-ASCII text differently. Ties between equal keys are left in the table's order, which the database does not promise.
- Queries.BlogPostsQuery: `published_date <= now` compares the two timestamps as ISO-8601 text, which matches chronological order only when both are written in the same format.
- Types: `display_order` is an integer here, while the column type allows fractions.
- ApiHooks.SearchPrograms: the length test counts characters, while JavaScript counts UTF-16 code units. The two differ for characters outside the Basic Multilingual Plane.
- ApiHooks.SettingsMap: the result is a plain map. On a JavaScript object, a row whose key is `__proto__` would not become an own property, and the model does not capture that.
- Queries.SiteSettingsQuery: states which rows are returned, not their order. The request names no order, and the model keeps the table's.
- Supabase.HandleSupabaseError: the source accepts any value; here the error is either absent or has a string message.
